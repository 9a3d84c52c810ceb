/**
 Every step of a forwarder keeps its handlers, its pool threads and its queue of jobs in agreement with who works
 on what.
 */
module Staffing {
  import opened Protocol
  import opened Forwarding

  /** Nothing changes about who works on the request. */
  predicate SameSpot(rec: Record, rec': Record) {
    && AtHandler(rec') == AtHandler(rec) && AtWorker(rec') == AtWorker(rec) && rec'.thread == rec.thread
    && (rec.stage.Pooled? || rec'.stage.Pooled? ==> rec'.stage == rec.stage)
  }

  predicate Unmanned(rec: Record) {
    !AtHandler(rec) && !AtWorker(rec) && !rec.stage.Pooled?
  }

  predicate SpotAt(fw: Forwarder, fw': Forwarder, a: nat)
    requires a < |fw'.records|
  {
    if a < |fw.records| then SameSpot(fw.records[a], fw'.records[a]) else Unmanned(fw'.records[a])
  }

  predicate SameCrew(fw: Forwarder, fw': Forwarder) {
    fw'.handlers == fw.handlers && fw'.workers == fw.workers && fw'.jobs == fw.jobs && fw'.pulled == fw.pulled
  }

  lemma SpotsKeep(fw: Forwarder, fw': Forwarder)
    requires Staffed(fw) && SameCrew(fw, fw') && fw'.batches == fw.batches && |fw.records| <= |fw'.records|
    requires forall a :: 0 <= a < |fw'.records| ==> SpotAt(fw, fw', a)
    ensures Staffed(fw')
  {
    forall h | 0 <= h < |fw'.handlers| ensures HandlerOk(fw', h) {
      assert HandlerOk(fw, h);
      if fw.handlers[h].OnRequest? { assert SpotAt(fw, fw', fw.handlers[h].addr); }
    }
    forall w | 0 <= w < |fw'.workers| ensures WorkerOk(fw', w) {
      assert WorkerOk(fw, w);
      if fw.workers[w].OnRequest? { assert SpotAt(fw, fw', fw.workers[w].addr); }
    }
    forall a | 0 <= a < |fw'.records| ensures RecordManned(fw', a) {
      assert SpotAt(fw, fw', a);
      if a < |fw.records| { assert RecordManned(fw, a); }
    }
    forall j | 0 <= j < |fw'.batches| ensures BatchManned(fw', j) { assert BatchManned(fw, j); }
    forall k | fw'.pulled <= k < |fw'.jobs| ensures JobOk(fw', k) {
      assert JobOk(fw, k);
      if fw.jobs[k].HandleJob? { assert SpotAt(fw, fw', fw.jobs[k].addr); }
    }
  }

  /** One record changes, and nothing about who works on it. */
  lemma SpotKeeps(fw: Forwarder, a: nat, rec: Record)
    requires Staffed(fw) && a < |fw.records| && SameSpot(fw.records[a], rec)
    ensures Staffed(SetRecord(fw, a, rec))
  {
    SpotsKeep(fw, SetRecord(fw, a, rec));
  }

  // ---------- handlers ----------

  lemma TakeStaffs(fw: Forwarder, h: nat)
    requires Staffed(fw) && fw.taken < |fw.records| && fw.records[fw.taken].stage == Incoming
    requires h < |fw.handlers| && fw.handlers[h] == Free
    ensures Staffed(Take(fw, h))
  {
    var fw', a := Take(fw, h), fw.taken;
    forall g | 0 <= g < |fw'.handlers| ensures HandlerOk(fw', g) { assert HandlerOk(fw, g); }
    forall w | 0 <= w < |fw'.workers| ensures WorkerOk(fw', w) { assert WorkerOk(fw, w); }
    forall b | 0 <= b < |fw'.records| ensures RecordManned(fw', b) { assert RecordManned(fw, b); }
    forall j | 0 <= j < |fw'.batches| ensures BatchManned(fw', j) { assert BatchManned(fw, j); }
    forall k | fw'.pulled <= k < |fw'.jobs| ensures JobOk(fw', k) { assert JobOk(fw, k); }
  }

  /** The handler that works on a request is that of its record. */
  lemma FindHandler(fw: Forwarder, a: nat)
    requires Staffed(fw) && a < |fw.records| && AtHandler(fw.records[a])
    ensures fw.records[a].thread < |fw.handlers| && fw.handlers[fw.records[a].thread] == OnRequest(a)
  {
    assert RecordManned(fw, a);
  }

  lemma FindWorker(fw: Forwarder, a: nat)
    requires Staffed(fw) && a < |fw.records| && AtWorker(fw.records[a])
    ensures fw.records[a].thread < |fw.workers| && fw.workers[fw.records[a].thread] == OnRequest(a)
  {
    assert RecordManned(fw, a);
  }

  lemma ToPoolStaffs(fw: Forwarder, a: nat)
    requires Staffed(fw) && a < |fw.records| && AtHandler(fw.records[a])
    ensures Staffed(ToPool(fw, a))
  {
    FindHandler(fw, a);
    var fw' := ToPool(fw, a);
    forall g | 0 <= g < |fw'.handlers| ensures HandlerOk(fw', g) { assert HandlerOk(fw, g); }
    forall w | 0 <= w < |fw'.workers| ensures WorkerOk(fw', w) { assert WorkerOk(fw, w); }
    forall b | 0 <= b < |fw'.records| ensures RecordManned(fw', b) { assert RecordManned(fw, b); }
    forall j | 0 <= j < |fw'.batches| ensures BatchManned(fw', j) { assert BatchManned(fw, j); }
    forall k | fw'.pulled <= k < |fw'.jobs| ensures JobOk(fw', k) { if k < |fw.jobs| { assert JobOk(fw, k); } }
  }

  lemma ConcludeStaffs(fw: Forwarder, a: nat)
    requires Staffed(fw) && a < |fw.records| && AtHandler(fw.records[a])
    ensures Staffed(Conclude(fw, a))
  {
    FindHandler(fw, a);
    var fw' := Conclude(fw, a);
    forall g | 0 <= g < |fw'.handlers| ensures HandlerOk(fw', g) { assert HandlerOk(fw, g); }
    forall w | 0 <= w < |fw'.workers| ensures WorkerOk(fw', w) { assert WorkerOk(fw, w); }
    forall b | 0 <= b < |fw'.records| ensures RecordManned(fw', b) { assert RecordManned(fw, b); }
    forall j | 0 <= j < |fw'.batches| ensures BatchManned(fw', j) { assert BatchManned(fw, j); }
    forall k | fw'.pulled <= k < |fw'.jobs| ensures JobOk(fw', k) { assert JobOk(fw, k); }
  }

  // ---------- the pool ----------

  /** The oldest job can be begun whenever a thread is free. */
  lemma PullFinds(fw: Forwarder, w: nat)
    requires Staffed(fw) && w < |fw.workers| && fw.workers[w] == Free && fw.pulled < |fw.jobs|
    ensures CanPull(fw, w) && JobOk(fw, fw.pulled)
  {
    assert JobOk(fw, fw.pulled);
  }

  lemma PullStaffs(fw: Forwarder, w: nat)
    requires Staffed(fw) && CanPull(fw, w)
    ensures Staffed(Pull(fw, w))
  {
    PullFinds(fw, w);
    match fw.jobs[fw.pulled]
    case HandleJob(a) => PullRequestStaffs(fw, w, a);
    case DispatchJob(j) => PullBatchStaffs(fw, w, j);
    case CallbackJob(j) => PullBatchStaffs(fw, w, j);
  }

  lemma PullRequestStaffs(fw: Forwarder, w: nat, a: nat)
    requires Staffed(fw) && CanPull(fw, w) && fw.jobs[fw.pulled] == HandleJob(a) && JobOk(fw, fw.pulled)
    ensures Staffed(Pull(fw, w))
  {
    var fw' := Pull(fw, w);
    forall g | 0 <= g < |fw'.handlers| ensures HandlerOk(fw', g) { assert HandlerOk(fw, g); }
    forall v | 0 <= v < |fw'.workers| ensures WorkerOk(fw', v) { assert WorkerOk(fw, v); }
    forall b | 0 <= b < |fw'.records| ensures RecordManned(fw', b) { assert RecordManned(fw, b); }
    forall j | 0 <= j < |fw'.batches| ensures BatchManned(fw', j) { assert BatchManned(fw, j); }
    forall k | fw'.pulled <= k < |fw'.jobs| ensures JobOk(fw', k) { assert JobOk(fw, k); }
  }

  lemma PullBatchStaffs(fw: Forwarder, w: nat, j: nat)
    requires Staffed(fw) && CanPull(fw, w) && JobOk(fw, fw.pulled)
    requires fw.jobs[fw.pulled] == DispatchJob(j) || fw.jobs[fw.pulled] == CallbackJob(j)
    ensures Staffed(Pull(fw, w))
  {
    var fw' := Pull(fw, w);
    assert BatchManned(fw, j);
    forall g | 0 <= g < |fw'.handlers| ensures HandlerOk(fw', g) { assert HandlerOk(fw, g); }
    forall v | 0 <= v < |fw'.workers| ensures WorkerOk(fw', v) { assert WorkerOk(fw, v); }
    forall b | 0 <= b < |fw'.records| ensures RecordManned(fw', b) { assert RecordManned(fw, b); }
    forall i | 0 <= i < |fw'.batches| ensures BatchManned(fw', i) { assert BatchManned(fw, i); }
    forall k | fw'.pulled <= k < |fw'.jobs| ensures JobOk(fw', k) { assert JobOk(fw, k); }
  }

  lemma ScheduleStaffs(fw: Forwarder, a: nat)
    requires Staffed(fw) && a < |fw.records| && AtWorker(fw.records[a])
    ensures Staffed(Schedule(fw, a))
  {
    FindWorker(fw, a);
    var fw' := Schedule(fw, a);
    forall g | 0 <= g < |fw'.handlers| ensures HandlerOk(fw', g) { assert HandlerOk(fw, g); }
    forall v | 0 <= v < |fw'.workers| ensures WorkerOk(fw', v) { assert WorkerOk(fw, v); }
    forall b | 0 <= b < |fw'.records| ensures RecordManned(fw', b) { assert RecordManned(fw, b); }
    forall i | 0 <= i < |fw'.batches| ensures BatchManned(fw', i) { assert BatchManned(fw, i); }
    forall k | fw'.pulled <= k < |fw'.jobs| ensures JobOk(fw', k) { assert JobOk(fw, k); }
  }

  // ---------- batches ----------

  lemma GatherStaffs(fw: Forwarder)
    requires Staffed(fw) && fw.dispatcher.Found? && 1 <= fw.popped <= |fw.ready|
    ensures Staffed(Gather(fw))
  {
    hide Extend, EndingOf;
    var fw' := Gather(fw);
    forall g | 0 <= g < |fw'.handlers| ensures HandlerOk(fw', g) { assert HandlerOk(fw, g); }
    forall v | 0 <= v < |fw'.workers| ensures WorkerOk(fw', v) { assert WorkerOk(fw, v); }
    forall b | 0 <= b < |fw'.records| ensures RecordManned(fw', b) { assert RecordManned(fw, b); }
    forall i | 0 <= i < |fw'.batches| ensures BatchManned(fw', i) { if i < |fw.batches| { assert BatchManned(fw, i); } }
    forall k | fw'.pulled <= k < |fw'.jobs| ensures JobOk(fw', k) { if k < |fw.jobs| { assert JobOk(fw, k); } }
  }

  lemma PerformItemStaffs(fw: Forwarder, j: nat, data: seq<char>)
    requires Staffed(fw) && CanPerform(fw, j) && fw.records[Performing(fw, j).addr].stage.Released?
    ensures Staffed(PerformItem(fw, j, data))
  {
    var fw' := PerformItem(fw, j, data);
    forall g | 0 <= g < |fw'.handlers| ensures HandlerOk(fw', g) { assert HandlerOk(fw, g); }
    forall v | 0 <= v < |fw'.workers| ensures WorkerOk(fw', v) { assert WorkerOk(fw, v); }
    forall b | 0 <= b < |fw'.records| ensures RecordManned(fw', b) { assert RecordManned(fw, b); }
    forall i | 0 <= i < |fw'.batches| ensures BatchManned(fw', i) { assert BatchManned(fw, i); }
    forall k | fw'.pulled <= k < |fw'.jobs| ensures JobOk(fw', k) { assert JobOk(fw, k); }
  }

  lemma PerformStaffs(fw: Forwarder, j: nat, data: seq<char>)
    requires Staffed(fw) && CanPerform(fw, j) && fw.records[Performing(fw, j).addr].stage.Released?
             && fw.batches[j].replied == 0
    ensures Staffed(Perform(fw, j, data))
  {
    PerformItemStaffs(fw, j, data);
    var fw1, fw' := PerformItem(fw, j, data), Perform(fw, j, data);
    assert BatchManned(fw1, j);
    forall g | 0 <= g < |fw'.handlers| ensures HandlerOk(fw', g) { assert HandlerOk(fw1, g); }
    forall v | 0 <= v < |fw'.workers| ensures WorkerOk(fw', v) { assert WorkerOk(fw1, v); }
    forall b | 0 <= b < |fw'.records| ensures RecordManned(fw', b) { assert RecordManned(fw1, b); }
    forall i | 0 <= i < |fw'.batches| ensures BatchManned(fw', i) { assert BatchManned(fw1, i); }
    forall k | fw'.pulled <= k < |fw'.jobs| ensures JobOk(fw', k) { if k < |fw.jobs| { assert JobOk(fw1, k); } }
  }

  lemma CompleteStaffs(fw: Forwarder, j: nat)
    requires Staffed(fw) && CanReply(fw, j) && Known(fw, Replying(fw, j))
    requires fw.records[fw.requests[Replying(fw, j)]].stage.Performed?
    ensures Staffed(Complete(fw, j))
  {
    var a := fw.requests[Replying(fw, j)];
    SpotKeeps(fw, a, Answer(fw.records[a]));
    hide Staffed, Answer;
    var fw0 := SetRecord(fw, a, Answer(fw.records[a]));
    var b := fw.batches[j].(replied := fw.batches[j].replied + 1);
    if b.replied == |b.items| {
      LastAnswerStaffs(fw0, Complete(fw, j), j, b.(progress := Over));
    } else {
      AnswerStaffs(fw0, Complete(fw, j), j, b);
    }
  }

  lemma AnswerStaffs(fw: Forwarder, fw': Forwarder, j: nat, b: Batch)
    requires Staffed(fw) && j < |fw.batches| && fw.batches[j].progress.On?
    requires fw' == fw.(requests := fw'.requests, batches := fw.batches[j := b])
    requires b.progress == fw.batches[j].progress && b.replied < |b.items|
    ensures Staffed(fw')
  {
    forall g | 0 <= g < |fw'.handlers| ensures HandlerOk(fw', g) { assert HandlerOk(fw, g); }
    forall v | 0 <= v < |fw'.workers| ensures WorkerOk(fw', v) { assert WorkerOk(fw, v); }
    forall a | 0 <= a < |fw'.records| ensures RecordManned(fw', a) { assert RecordManned(fw, a); }
    forall i | 0 <= i < |fw'.batches| ensures BatchManned(fw', i) { assert BatchManned(fw, i); }
    forall k | fw'.pulled <= k < |fw'.jobs| ensures JobOk(fw', k) { assert JobOk(fw, k); }
  }

  lemma LastAnswerStaffs(fw: Forwarder, fw': Forwarder, j: nat, b: Batch)
    requires Staffed(fw) && j < |fw.batches| && fw.batches[j].progress.On?
             && fw.batches[j].progress.worker < |fw.workers|
    requires fw' == fw.(requests := fw'.requests, batches := fw.batches[j := b],
             workers := fw.workers[fw.batches[j].progress.worker := Free])
    requires b.progress == Over && b.replied == |b.items|
    ensures Staffed(fw')
  {
    assert BatchManned(fw, j);
    forall g | 0 <= g < |fw'.handlers| ensures HandlerOk(fw', g) { assert HandlerOk(fw, g); }
    forall v | 0 <= v < |fw'.workers| ensures WorkerOk(fw', v) { assert WorkerOk(fw, v); }
    forall a | 0 <= a < |fw'.records| ensures RecordManned(fw', a) { assert RecordManned(fw, a); }
    forall i | 0 <= i < |fw'.batches| ensures BatchManned(fw', i) { assert BatchManned(fw, i); }
    forall k | fw'.pulled <= k < |fw'.jobs| ensures JobOk(fw', k) { assert JobOk(fw, k); }
  }
}
