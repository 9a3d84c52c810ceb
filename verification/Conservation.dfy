/**
 Requests are neither lost nor duplicated, files are closed when their last user
 leaves, a forwarder stops only when nothing is left in it, and nothing ever gets stuck.
 */
module Conservation {
  import opened Forge
  import opened Offsets
  import opened Protocol
  import opened Conversation
  import opened Forwarding
  import opened TableSteps
  import opened ForwarderSteps
  import opened Pipeline
  import opened Invariant
  import opened Steps
  import opened Guarantees

  // ---------- each request is in one place ----------

  datatype Place =
    | IncomingQueue
    | Handler(h: nat)      // at a handler
    | PoolQueue            // waiting for a pool thread
    | Worker(w: nat)       // at a pool thread, up to its registration
    | Scheduler
    | ReadyRing
    | DispatcherHands
    | InBatch(j: nat)      // not yet answered there
    | Answered

  /** The table of requests leads from the identifier of record a to record a. */
  predicate Listed(fw: Forwarder, a: nat)
    requires a < |fw.records|
  {
    var id := fw.records[a].req.id;
    id in fw.requests && fw.requests[id] == a
  }

  /** Record a is found at this place, by looking at the place. */
  ghost predicate IsAt(fw: Forwarder, a: nat, p: Place)
    requires a < |fw.records|
  {
    var id := fw.records[a].req.id;
    match p
    case IncomingQueue => fw.taken <= a
    case Handler(h) => h < |fw.handlers| && fw.handlers[h] == OnRequest(a)
    case PoolQueue => exists k :: fw.pulled <= k < |fw.jobs| && fw.jobs[k] == HandleJob(a)
    case Worker(w) => w < |fw.workers| && fw.workers[w] == OnRequest(a)
    case Scheduler => Listed(fw, a) && id in fw.agios
    case ReadyRing => Listed(fw, a) && exists k :: fw.popped <= k < |fw.ready| && fw.ready[k] == id
    case DispatcherHands => Listed(fw, a) && exists k :: Issued(fw) <= k < fw.popped <= |fw.ready| && fw.ready[k] == id
    case InBatch(j) => j < |fw.batches| && exists i ::
        fw.batches[j].replied <= i < |fw.batches[j].items| && fw.batches[j].items[i].addr == a
    case Answered => fw.records[a].stage == Finished
  }

  function BatchOf(batches: seq<Batch>, k: nat): nat {
    if batches == [] then 0
    else if batches[|batches| - 1].start <= k then |batches| - 1
    else BatchOf(batches[..|batches| - 1], k)
  }

  function PlaceOf(fw: Forwarder, a: nat): Place
    requires a < |fw.records|
  {
    match fw.records[a].stage
    case Incoming => IncomingQueue
    case Scheduled => Scheduler
    case Released(k) => if fw.popped <= k then ReadyRing else if Issued(fw) <= k then DispatcherHands
      else InBatch(BatchOf(fw.batches, k))
    case Performed(k) => InBatch(BatchOf(fw.batches, k))
    case Finished => Answered
    case Pooled(_) => PoolQueue
    case Held | Opened(_) | Closed => Handler(fw.records[a].thread)
    case _ => Worker(fw.records[a].thread)
  }

  lemma {:induction false} InSomeBatch(fw: Forwarder, m: nat, k: nat)
    requires Batched(fw) && m <= |fw.batches| && k < BatchStart(fw.batches, m)
    ensures var j := BatchOf(fw.batches[..m], k);
            j < m && fw.batches[j].start <= k < fw.batches[j].start + |fw.batches[j].items|
  {
    assert BatchOk(fw, m - 1);
    if k < fw.batches[m - 1].start {
      InSomeBatch(fw, m - 1, k);
      assert fw.batches[..m][..m - 1] == fw.batches[..m - 1];
    }
  }

  lemma StillInBatch(fw: Forwarder, a: nat, k: nat)
    requires Tables(fw) && a < |fw.records| && k < Issued(fw)
    requires fw.records[a].stage == Released(k) || fw.records[a].stage == Performed(k)
    ensures var j := BatchOf(fw.batches, k);
            && j < |fw.batches| && fw.batches[j].start <= k < fw.batches[j].start + |fw.batches[j].items|
            && fw.batches[j].replied <= k - fw.batches[j].start
            && fw.batches[j].items[k - fw.batches[j].start].addr == a
            && (fw.records[a].stage.Performed? <==> k - fw.batches[j].start < fw.batches[j].performed)
  {
    hide Identified, InOrder, Scheduling, BatchOf;
    InSomeBatch(fw, |fw.batches|, k);
    assert fw.batches[..|fw.batches|] == fw.batches;
    var j := BatchOf(fw.batches, k);
    assert Tracked(fw.records[a], fw.batches[j]) && ReleasedAt(fw, fw.records[a]) && HasEntry(fw, a);
    assert BatchOk(fw, j);
    assert ItemOk(fw, fw.batches[j], k - fw.batches[j].start);
  }

  lemma IsWhereItIs(fw: Forwarder, a: nat)
    requires Tables(fw) && a < |fw.records|
    ensures IsAt(fw, a, PlaceOf(fw, a))
  {
    var rec := fw.records[a];
    assert HasEntry(fw, a) && ReleasedAt(fw, rec) && RecordManned(fw, a);
    if (rec.stage.Released? || rec.stage.Performed?) && rec.stage.k < Issued(fw) { StillInBatch(fw, a, rec.stage.k); }
  }

  lemma IsNowhereElse(fw: Forwarder, a: nat, p: Place)
    requires Tables(fw) && a < |fw.records| && IsAt(fw, a, p)
    ensures p == PlaceOf(fw, a)
  {
    hide Identified, BatchOf;
    var id := fw.records[a].req.id;
    match p
    case Handler(h) => assert HandlerOk(fw, h);
    case Worker(w) => assert WorkerOk(fw, w);
    case PoolQueue =>
      var k :| fw.pulled <= k < |fw.jobs| && fw.jobs[k] == HandleJob(a);
      assert JobOk(fw, k);
    case Scheduler => assert At(fw, id, Scheduled);
    case ReadyRing =>
      var k :| fw.popped <= k < |fw.ready| && fw.ready[k] == id;
      assert Waits(fw, k);
    case DispatcherHands =>
      var k :| Issued(fw) <= k < fw.popped <= |fw.ready| && fw.ready[k] == id;
      assert Waits(fw, k);
    case InBatch(j) => IsInThatBatch(fw, a, j);
    case _ =>
  }

  lemma IsInThatBatch(fw: Forwarder, a: nat, j: nat)
    requires Tables(fw) && a < |fw.records| && IsAt(fw, a, InBatch(j))
    ensures InBatch(j) == PlaceOf(fw, a)
  {
    hide Identified, BatchOf, InOrder, Registry, Scheduling, AllTracked, Staffed;
    var i :| fw.batches[j].replied <= i < |fw.batches[j].items| && fw.batches[j].items[i].addr == a;
    assert BatchOk(fw, j);
    assert ItemOk(fw, fw.batches[j], i);
    IsInItsBatch(fw, j, fw.batches[j].start + i);
  }

  lemma IsInItsBatch(fw: Forwarder, j: nat, k: nat)
    requires Batched(fw) && j < |fw.batches| && fw.batches[j].start <= k < fw.batches[j].start + |fw.batches[j].items|
    ensures k < Issued(fw) && BatchOf(fw.batches, k) == j
  {
    StartIsBelow(fw, j, |fw.batches|);
    InSomeBatch(fw, |fw.batches|, k);
    assert fw.batches[..|fw.batches|] == fw.batches;
    var b := BatchOf(fw.batches, k);
    assert BatchOk(fw, j) && BatchOk(fw, b);
    if b < j { StartIsBelow(fw, b, j); } else if j < b { StartIsBelow(fw, j, b); }
  }

  /**
   Conservation: at any time every request ever received is in exactly one place, and
   the table of requests leads to it exactly between its registration and its answer.
   */
  lemma EveryRequestIsInOnePlace(cfg: Setup, run: seq<State>, i: nat, f: nat, a: nat)
    requires IsRun(cfg, run) && i < |run| && f < |run[i].fw| && a < |run[i].fw[f].records|
    ensures var fw := run[i].fw[f];
            && IsAt(fw, a, PlaceOf(fw, a))
            && (forall p :: IsAt(fw, a, p) ==> p == PlaceOf(fw, a))
            && (Listed(fw, a) <==> InTable(fw.records[a]))
  {
    hide IsRun, Inv, Tables;
    RunKeepsInv(cfg, run, i);
    TablesOf(cfg, run[i], f);
    var fw := run[i].fw[f];
    IsWhereItIs(fw, a);
    forall p | IsAt(fw, a, p) ensures p == PlaceOf(fw, a) { IsNowhereElse(fw, a, p); }
    TableIsExact(fw, a);
  }

  lemma TableIsExact(fw: Forwarder, a: nat)
    requires Tables(fw) && a < |fw.records|
    ensures Listed(fw, a) <==> InTable(fw.records[a])
  {
    assert HasEntry(fw, a);
    if Listed(fw, a) { assert Entry(fw, fw.records[a].req.id); }
  }

  /** Each request is given its final answer once: not before it is finished, and never again. */
  lemma AnsweredOnce(cfg: Setup, run: seq<State>, i: nat, f: nat, a: nat)
    requires IsRun(cfg, run) && i < |run| && f < |run[i].fw| && a < |run[i].fw[f].records|
    ensures run[i].fw[f].records[a].answers == if run[i].fw[f].records[a].stage == Finished then 1 else 0
    ensures forall c :: 0 <= c < |run[i].cl| && run[i].cl[c].phase == Done && run[i].fw[f].records[a].req.rank == c ==>
                        run[i].fw[f].records[a].answers == 1
  {
    hide IsRun, Tables, Offset, Iterations, ShutdownThreshold, ForwarderOf;
    RunKeepsInv(cfg, run, i);
    assert OwnerOk(cfg, run[i], f, a);
    forall c | 0 <= c < |run[i].cl| && run[i].cl[c].phase == Done && run[i].fw[f].records[a].req.rank == c
      ensures run[i].fw[f].records[a].answers == 1
    {
      assert ClientOk(cfg, run[i], c);
    }
  }

  // ---------- batches ----------

  function IdsOf(items: seq<Copy>): seq<nat> {
    seq(|items|, i requires 0 <= i < |items| => items[i].req.id)
  }

  function Concatenated(batches: seq<Batch>): seq<nat> {
    if batches == [] then [] else Concatenated(batches[..|batches| - 1]) + IdsOf(batches[|batches| - 1].items)
  }

  lemma {:induction false} BatchesAreAPrefix(fw: Forwarder, m: nat)
    requires Batched(fw) && m <= |fw.batches|
    ensures BatchStart(fw.batches, m) <= |fw.ready|
    ensures Concatenated(fw.batches[..m]) == fw.ready[..BatchStart(fw.batches, m)]
  {
    if m > 0 {
      BatchesAreAPrefix(fw, m - 1);
      var b := fw.batches[m - 1];
      assert BatchOk(fw, m - 1);
      assert ItemOk(fw, b, |b.items| - 1);
      assert fw.batches[..m][..m - 1] == fw.batches[..m - 1];
      forall i | 0 <= i < |b.items|
        ensures IdsOf(b.items)[i] == fw.ready[b.start..b.start + |b.items|][i]
      {
        assert ItemOk(fw, b, i);
      }
      assert IdsOf(b.items) == fw.ready[b.start..b.start + |b.items|];
    }
  }

  /**
   A batch of the pipeline: small and uniform, and not longer because it was full, or the queue was empty, or its
   head did not fit.
   */
  ghost predicate ProperBatch(fw: Forwarder, b: Batch) {
    && 1 <= |b.items| <= 16
    && (forall x :: 0 <= x < |b.items| ==>
          && b.items[x].req.msg.op == b.items[0].req.msg.op
          && b.items[x].req.msg.handle == b.items[0].req.msg.handle)
    && EndingOk(fw, b.start, b.items, b.ending)
  }

  /** The batches, put together, are the order in which the scheduler released the requests. */
  lemma BatchesFollowReleases(cfg: Setup, run: seq<State>, i: nat, f: nat)
    requires IsRun(cfg, run) && i < |run| && f < |run[i].fw|
    ensures var fw := run[i].fw[f];
            && Issued(fw) <= |fw.ready| && Concatenated(fw.batches) == fw.ready[..Issued(fw)]
            && forall j :: 0 <= j < |fw.batches| ==> ProperBatch(fw, fw.batches[j])
  {
    hide IsRun, Inv;
    RunKeepsInv(cfg, run, i);
    TablesOf(cfg, run[i], f);
    var fw := run[i].fw[f];
    BatchesAreAPrefix(fw, |fw.batches|);
    assert fw.batches[..|fw.batches|] == fw.batches;
    forall j | 0 <= j < |fw.batches| ensures ProperBatch(fw, fw.batches[j]) {
      assert BatchOk(fw, j);
      forall x | 0 <= x < |fw.batches[j].items|
        ensures fw.batches[j].items[x].req.msg.op == fw.batches[j].items[0].req.msg.op
        ensures fw.batches[j].items[x].req.msg.handle == fw.batches[j].items[0].req.msg.handle
      {
        assert ItemOk(fw, fw.batches[j], x);
      }
    }
  }

  // ---------- open files ----------

  /** The count of a file is the number of clients that use it; it is open exactly while that is not zero. */
  lemma ReferencesAreUsers(cfg: Setup, run: seq<State>, i: nat, f: nat, file: File)
    requires IsRun(cfg, run) && i < |run| && f < |run[i].fw|
    ensures var fw := run[i].fw[f];
            var users := Users(cfg, run[i], f, file);
            && (file in fw.handles <==> users != {})
            && (file in fw.handles ==> fw.handles[file].references == |users|)
            && ((exists fd :: fd in fw.descriptors && fw.descriptors[fd] == file) <==> users != {})
  {
    hide IsRun, Tables, Users, Conversations, Owners, FilesOk, SignOffs, Barriers, FaultOk;
    RunKeepsInv(cfg, run, i);
    assert HandleOk(cfg, run[i], f, file);
    if fd :| fd in run[i].fw[f].descriptors && run[i].fw[f].descriptors[fd] == file {
      assert DescriptorOk(run[i].fw[f], fd);
    }
  }

  /** When all clients of a forwarder are done, it has no file open. */
  lemma NothingOpenAtTheEnd(cfg: Setup, run: seq<State>, i: nat, f: nat)
    requires IsRun(cfg, run) && i < |run| && f < |run[i].fw|
    requires forall c :: 0 <= c < |run[i].cl| && IsClient(cfg, run[i], c) && cfg.Home(c) == f ==>
               Order(run[i].cl[c].phase) >= 6
    ensures run[i].fw[f].handles == map[] && forall fd :: fd !in run[i].fw[f].descriptors
  {
    hide IsRun, Tables, ShutdownThreshold, ForwarderOf;
    forall file: File ensures file !in run[i].fw[f].handles {
      ReferencesAreUsers(cfg, run, i, f, file);
      assert Users(cfg, run[i], f, file) == {};
    }
    RunKeepsInv(cfg, run, i);
    forall fd ensures fd !in run[i].fw[f].descriptors {
      if fd in run[i].fw[f].descriptors { DescriptorHasFile(cfg, run[i], f, fd); }
    }
  }

  lemma DescriptorHasFile(cfg: Setup, s: State, f: nat, fd: int)
    requires Inv(cfg, s) && f < |s.fw| && fd in s.fw[f].descriptors
    ensures s.fw[f].descriptors[fd] in s.fw[f].handles
  {
    hide Tables;
    assert DescriptorOk(s.fw[f], fd);
  }

  // ---------- shutdown ----------

  /** Every client of the forwarder has signed off. */
  ghost predicate AllSignedOff(cfg: Setup, s: State, f: nat) {
    forall c :: 0 <= c < |s.cl| && IsClient(cfg, s, c) && cfg.Home(c) == f ==> SignedOff(s.cl[c])
  }

  /** A forwarder stops exactly when every one of its clients has signed off; then nothing is left in it. */
  lemma ShutdownIsQuiescent(cfg: Setup, run: seq<State>, i: nat, f: nat)
    requires IsRun(cfg, run) && i < |run| && f < |run[i].fw|
    ensures var fw := run[i].fw[f];
            && (fw.stopped <==> AllSignedOff(cfg, run[i], f))
            && (fw.stopped ==>
                  && fw.taken == |fw.records| && fw.requests == map[] && fw.agios == {}
                  && fw.popped == |fw.ready| && fw.dispatcher == Idle
                  && fw.pulled == |fw.jobs| && AllFree(fw.handlers) && AllFree(fw.workers)
                  && (forall a :: 0 <= a < |fw.records| ==> fw.records[a].stage == Finished)
                  && (forall j :: 0 <= j < |fw.batches| ==> fw.batches[j].replied == |fw.batches[j].items|)
                  && fw.handles == map[])
  {
    hide IsRun, Inv, Tables, SignedOff, ShutdownThreshold, ForwarderOf;
    var s := run[i];
    var fw := s.fw[f];
    RunKeepsInv(cfg, run, i);
    StoppedIsAllGone(cfg, s, f);
    if fw.stopped {
      AllGoneIsIdle(cfg, s, f);
      TablesOf(cfg, s, f);
      IdleTablesAreEmpty(fw);
      forall c | 0 <= c < |s.cl| && IsClient(cfg, s, c) && cfg.Home(c) == f
        ensures Order(s.cl[c].phase) >= 6
      {
        SignedOffIsLate(s.cl[c]);
      }
      NothingOpenAtTheEnd(cfg, run, i, f);
    }
  }

  lemma SignedOffIsLate(cl: Client)
    requires SignedOff(cl)
    ensures Order(cl.phase) >= 6
  {
  }

  lemma StoppedIsAllGone(cfg: Setup, s: State, f: nat)
    requires Inv(cfg, s) && f < |s.fw|
    ensures s.fw[f].stopped <==> AllSignedOff(cfg, s, f)
  {
    hide Tables, SignedOff, Config.Threshold, Config.Home, Gone, Conversations, Owners, FilesOk, Handles, Barriers;
    assert CountOk(cfg, s, f);
    NotAllGone(cfg, s, f);
    if AllSignedOff(cfg, s, f) { AllAreThreshold(cfg, s, f); }
  }

  lemma AllAreThreshold(cfg: Setup, s: State, f: nat)
    requires Sized(cfg, s) && f < cfg.forwarders && AllSignedOff(cfg, s, f)
    ensures |Gone(cfg, s, f)| == cfg.Threshold()
  {
    hide SignedOff, ShutdownThreshold, ForwarderOf, Interval;
    ServedBy(cfg, f);
    BlockFits(f, cfg.worldSize, cfg.forwarders);
    assert Gone(cfg, s, f) == Interval(f * cfg.Threshold(), cfg.Threshold());
  }

  lemma AllGoneIsIdle(cfg: Setup, s: State, f: nat)
    requires Inv(cfg, s) && f < |s.fw| && AllSignedOff(cfg, s, f)
    ensures forall a :: 0 <= a < |s.fw[f].records| ==> s.fw[f].records[a].stage == Finished
  {
    hide Inv, SignedOff;
    forall a | 0 <= a < |s.fw[f].records| ensures s.fw[f].records[a].stage == Finished {
      if Live(s.fw[f].records[a]) { WaitsForAnswer(cfg, s, f, a); }
    }
  }

  lemma WaitsForAnswer(cfg: Setup, s: State, f: nat, a: nat)
    requires Inv(cfg, s) && f < |s.fw| && a < |s.fw[f].records| && Live(s.fw[f].records[a])
    ensures var c := s.fw[f].records[a].req.rank;
            IsClient(cfg, s, c) && cfg.Home(c) == f && !SignedOff(s.cl[c])
  {
    hide Tables, ShutdownThreshold, ForwarderOf, Iterations, Offset;
    assert OwnerOk(cfg, s, f, a);
    assert ClientOk(cfg, s, s.fw[f].records[a].req.rank);
  }

  predicate AllFree(threads: seq<Duty>) {
    forall t :: 0 <= t < |threads| ==> threads[t] == Free
  }

  predicate Waiting(fw: Forwarder, a: int) {
    0 <= a < |fw.records| && Live(fw.records[a])
  }

  /** Whatever is left in a queue, a table or a batch belongs to a request that is not answered. */
  lemma WorkIsWaiting(fw: Forwarder)
    requires Tables(fw)
    ensures fw.taken < |fw.records| ==> Waiting(fw, fw.taken)
    ensures forall id :: id in fw.requests ==> Waiting(fw, fw.requests[id])
    ensures forall id :: id in fw.agios ==> id in fw.requests
    ensures Issued(fw) < |fw.ready| ==> fw.ready[Issued(fw)] in fw.requests
    ensures forall j :: 0 <= j < |fw.batches| ==>
              fw.batches[j].replied <= |fw.batches[j].items|
              && (fw.batches[j].replied < |fw.batches[j].items| ==>
                fw.batches[j].items[fw.batches[j].replied].req.id in fw.requests)
  {
    forall id | id in fw.requests ensures Waiting(fw, fw.requests[id]) { assert Entry(fw, id); }
    forall id | id in fw.agios ensures id in fw.requests { assert At(fw, id, Scheduled); }
    if Issued(fw) < |fw.ready| { assert Waits(fw, Issued(fw)); }
    forall j | 0 <= j < |fw.batches|
      ensures fw.batches[j].replied <= |fw.batches[j].items|
      ensures fw.batches[j].replied < |fw.batches[j].items| ==>
              fw.batches[j].items[fw.batches[j].replied].req.id in fw.requests
    {
      assert BatchOk(fw, j);
      if fw.batches[j].replied < |fw.batches[j].items| { assert ItemOk(fw, fw.batches[j], fw.batches[j].replied); }
    }
  }

  lemma IdleTablesAreEmpty(fw: Forwarder)
    requires Tables(fw) && forall a :: 0 <= a < |fw.records| ==> fw.records[a].stage == Finished
    ensures fw.taken == |fw.records| && fw.requests == map[] && fw.agios == {}
    ensures fw.popped == |fw.ready| && fw.dispatcher == Idle
    ensures forall j :: 0 <= j < |fw.batches| ==> fw.batches[j].replied == |fw.batches[j].items|
    ensures fw.pulled == |fw.jobs| && AllFree(fw.handlers) && AllFree(fw.workers)
  {
    WorkIsWaiting(fw);
    assert forall id :: id !in fw.requests;
    BusyMeansWork(fw);
  }

  /** A queued job, or a busy thread, belongs to a request or a batch that is not answered. */
  lemma BusyMeansWork(fw: Forwarder)
    requires Tables(fw)
    ensures forall h :: 0 <= h < |fw.handlers| && fw.handlers[h] != Free ==>
              fw.handlers[h].OnRequest? && Waiting(fw, fw.handlers[h].addr)
    ensures forall w :: 0 <= w < |fw.workers| && fw.workers[w] != Free ==> DutyWaits(fw, fw.workers[w])
    ensures fw.pulled <= |fw.jobs| && (fw.pulled < |fw.jobs| ==> JobWaits(fw, fw.jobs[fw.pulled]))
  {
    forall h | 0 <= h < |fw.handlers| && fw.handlers[h] != Free
      ensures fw.handlers[h].OnRequest? && Waiting(fw, fw.handlers[h].addr)
    {
      assert HandlerOk(fw, h);
    }
    forall w | 0 <= w < |fw.workers| && fw.workers[w] != Free ensures DutyWaits(fw, fw.workers[w]) {
      assert WorkerOk(fw, w);
      if fw.workers[w].OnBatch? { assert BatchManned(fw, fw.workers[w].j); }
    }
    if fw.pulled < |fw.jobs| {
      assert JobOk(fw, fw.pulled);
      match fw.jobs[fw.pulled]
      case HandleJob(_) =>
      case DispatchJob(j) => assert BatchManned(fw, j);
      case CallbackJob(j) => assert BatchManned(fw, j);
    }
  }

  predicate BatchWaits(fw: Forwarder, j: nat) {
    j < |fw.batches| && fw.batches[j].replied < |fw.batches[j].items|
  }

  predicate DutyWaits(fw: Forwarder, d: Duty) {
    match d
    case Free => false
    case OnRequest(a) => Waiting(fw, a)
    case OnBatch(j) => BatchWaits(fw, j)
  }

  predicate JobWaits(fw: Forwarder, job: Job) {
    match job
    case HandleJob(a) => Waiting(fw, a)
    case DispatchJob(j) => BatchWaits(fw, j)
    case CallbackJob(j) => BatchWaits(fw, j)
  }

  // ---------- the threads ----------

  /**
   At most as many requests as there are handlers are with handlers, and at most as many requests and batches as the
   pool has threads are with them: each is with a thread of the set-up, and no two are with the same.
   */
  lemma OneTaskPerThread(cfg: Setup, run: seq<State>, i: nat, f: nat, a: nat, b: nat, j: nat, k: nat)
    requires IsRun(cfg, run) && i < |run| && f < |run[i].fw|
    requires a < |run[i].fw[f].records| && b < |run[i].fw[f].records|
    requires j < |run[i].fw[f].batches| && k < |run[i].fw[f].batches|
    ensures var records := run[i].fw[f].records;
            && (AtHandler(records[a]) ==> records[a].thread < cfg.handlers)
            && (AtHandler(records[a]) && AtHandler(records[b]) && a != b ==> records[a].thread != records[b].thread)
            && (AtWorker(records[a]) ==> records[a].thread < cfg.workers)
            && (AtWorker(records[a]) && AtWorker(records[b]) && a != b ==> records[a].thread != records[b].thread)
    ensures var fw := run[i].fw[f];
            && (fw.batches[j].progress.On? ==> fw.batches[j].progress.worker < cfg.workers)
            && (fw.batches[j].progress.On? && fw.batches[k].progress == fw.batches[j].progress ==> j == k)
            && (fw.batches[j].progress.On? && AtWorker(fw.records[a]) ==>
                  fw.records[a].thread != fw.batches[j].progress.worker)
  {
    hide IsRun, Inv, Core;
    RunKeepsInv(cfg, run, i);
    TablesOf(cfg, run[i], f);
    var fw := run[i].fw[f];
    assert RecordManned(fw, a) && RecordManned(fw, b) && BatchManned(fw, j) && BatchManned(fw, k);
  }

  // ---------- nothing gets stuck ----------

  /** Another identifier can be drawn within the cycle. */
  predicate HasRoom(fw: Forwarder) {
    forall a :: 0 <= a < |fw.records| && Live(fw.records[a]) ==> |fw.records| + 1 <= a + CYCLE
  }

  lemma {:induction false} FreshDescriptor(taken: set<int>, n: nat) returns (fd: int)
    requires |taken| <= n
    ensures 0 <= fd <= n && fd !in taken
    decreases n
  {
    if n !in taken {
      fd := n;
    } else {
      fd := FreshDescriptor(taken - {n}, n - 1);
    }
  }

  /** The step of the job of a read or a write, or that of its client while the job waits for the client's buffer. */
  predicate OfJob(s: State, f: nat, a: nat, l: Label)
    requires f < |s.fw| && a < |s.fw[f].records|
  {
    match s.fw[f].records[a].stage
    case Begun => l == Start(f, a)
    case IdSent | Received => l == Label.Register(f, a)
    case Registered => l == Label.Schedule(f, a)
    case AwaitBuffer => l == GetBuffer(f, a) || l == Label.Recv(s.fw[f].records[a].req.rank)
    case _ => false
  }

  /** The step of the thread that works on a batch. */
  predicate OfBatch(s: State, f: nat, j: nat, l: Label)
    requires f < |s.fw| && j < |s.fw[f].batches|
  {
    l == if s.fw[f].batches[j].performed < |s.fw[f].batches[j].items| then Label.Perform(f, j) else Label.Complete(f, j)
  }

  /** The next step of what a pool thread is busy with. */
  predicate OfWorker(s: State, f: nat, w: nat, l: Label)
    requires f < |s.fw| && w < |s.fw[f].workers|
  {
    match s.fw[f].workers[w]
    case Free => false
    case OnRequest(a) => a < |s.fw[f].records| && OfJob(s, f, a, l)
    case OnBatch(j) => j < |s.fw[f].batches| && OfBatch(s, f, j, l)
  }

  /** A pool thread that works on something can take its next step, or its client can send the buffer it waits for. */
  lemma BusyWorkerGoesOn(cfg: Setup, s: State, f: nat, w: nat) returns (l: Label)
    requires Inv(cfg, s) && s.fault == NoFault && f < |s.fw| && w < |s.fw[f].workers| && s.fw[f].workers[w] != Free
    ensures Enabled(cfg, s, l) && OfWorker(s, f, w, l)
  {
    hide Inv, Core, Ok, Window, OfJob, OfBatch;
    TablesOf(cfg, s, f);
    assert WorkerOk(s.fw[f], w);
    match s.fw[f].workers[w]
    case OnRequest(a) => l := JobGoesOn(cfg, s, f, a);
    case OnBatch(j) => l := BatchGoesOn(cfg, s, f, j);
  }

  lemma JobGoesOn(cfg: Setup, s: State, f: nat, a: nat) returns (l: Label)
    requires Inv(cfg, s) && s.fault == NoFault && f < |s.fw| && a < |s.fw[f].records| && AtWorker(s.fw[f].records[a])
    ensures Enabled(cfg, s, l) && OfJob(s, f, a, l)
  {
    hide Inv, Ok, Window, ShutdownThreshold, ForwarderOf;
    OwnerOf(cfg, s, f, a);
    match s.fw[f].records[a].stage
    case Begun => l := Start(f, a);
    case IdSent | Received => l := Label.Register(f, a);
    case Registered => l := Label.Schedule(f, a);
    case AwaitBuffer => l := BufferComes(cfg, s, f, a);
  }

  /** The client has been told the identifier, or has answered it with its buffer. */
  lemma BufferComes(cfg: Setup, s: State, f: nat, a: nat) returns (l: Label)
    requires Inv(cfg, s) && s.fault == NoFault && f < |s.fw| && a < |s.fw[f].records|
             && s.fw[f].records[a].stage == AwaitBuffer
    ensures Enabled(cfg, s, l) && OfJob(s, f, a, l)
  {
    hide Inv, Window, Match, Offset, ShutdownThreshold, ForwarderOf;
    OwnerOf(cfg, s, f, a);
    var rec := s.fw[f].records[a];
    var cl := s.cl[rec.req.rank];
    if cl.pc == WaitId {
      FirstMatches(cl.toClient, TAG_ACK);
      l := Label.Recv(rec.req.rank);
    } else {
      FirstMatches(cl.toServer, rec.req.id);
      l := GetBuffer(f, a);
    }
  }

  /** A pool thread that works on a batch can perform or answer its next request. */
  lemma BatchGoesOn(cfg: Setup, s: State, f: nat, j: nat) returns (l: Label)
    requires s.fault == NoFault && f < |s.fw| && Tables(s.fw[f]) && j < |s.fw[f].batches|
             && s.fw[f].batches[j].progress.On?
    ensures Enabled(cfg, s, l) && OfBatch(s, f, j, l)
  {
    hide Core;
    var fw := s.fw[f];
    assert BatchManned(fw, j);
    if fw.batches[j].performed < |fw.batches[j].items| {
      PerformFindsIn(fw, j);
      l := Label.Perform(f, j);
    } else {
      PerformedAtMost(fw, j);
      l := Label.Complete(f, j);
    }
  }

  lemma PerformedAtMost(fw: Forwarder, j: nat)
    requires Core(fw) && j < |fw.batches|
    ensures fw.batches[j].replied <= fw.batches[j].performed <= |fw.batches[j].items|
  {
    assert BatchOk(fw, j);
  }

  /** With a thread in the pool, a queued job is begun or a busy thread goes on. */
  lemma PoolGoesOn(cfg: Setup, s: State, f: nat) returns (l: Label)
    requires Inv(cfg, s) && s.fault == NoFault && f < |s.fw| && 1 <= cfg.workers && s.fw[f].pulled < |s.fw[f].jobs|
    ensures Enabled(cfg, s, l)
  {
    hide Inv, Core, Ok, Window;
    TablesOf(cfg, s, f);
    if s.fw[f].workers[0] == Free {
      Staffing.PullFinds(s.fw[f], 0);
      l := Label.Pull(f, 0);
    } else {
      l := BusyWorkerGoesOn(cfg, s, f, 0);
    }
  }

  /** With a handler, a queued request is taken or a busy handler goes on. */
  lemma HandlerGoesOn(cfg: Setup, s: State, f: nat) returns (l: Label)
    requires Inv(cfg, s) && s.fault == NoFault && f < |s.fw| && 1 <= cfg.handlers && s.fw[f].taken < |s.fw[f].records|
    ensures Enabled(cfg, s, l)
  {
    hide Inv, Core, Ok, Window;
    TablesOf(cfg, s, f);
    if s.fw[f].handlers[0] == Free {
      l := Label.Take(f, 0);
    } else {
      assert HandlerOk(s.fw[f], 0);
      l := ServiceGoesOn(cfg, s, f, s.fw[f].handlers[0].addr);
    }
  }

  /** The step of the handler that works on a request. */
  predicate OfService(s: State, f: nat, a: nat, l: Label)
    requires f < |s.fw| && a < |s.fw[f].records|
  {
    match s.fw[f].records[a].stage
    case Held => l.Serve? && l.f == f && l.a == a
    case Opened(_) => l == SendHandle(f, a)
    case Closed => l.AckClose? && l.f == f && l.a == a
    case _ => false
  }

  /** A handler that works on a request can take its next step. */
  lemma ServiceGoesOn(cfg: Setup, s: State, f: nat, a: nat) returns (l: Label)
    requires Inv(cfg, s) && s.fault == NoFault && f < |s.fw| && a < |s.fw[f].records| && AtHandler(s.fw[f].records[a])
    ensures Enabled(cfg, s, l) && OfService(s, f, a, l)
  {
    hide Inv, Ok, Window, ShutdownThreshold, ForwarderOf;
    OwnerOf(cfg, s, f, a);
    match s.fw[f].records[a].stage
    case Held => var fd := FreshDescriptor(s.fw[f].descriptors.Keys, |s.fw[f].descriptors.Keys|); l := Serve(f, a, fd);
    case Opened(_) => l := SendHandle(f, a);
    case Closed => l := AckClose(f, a, 0);
  }

  /** Only requests of the loops go to the pool. */
  lemma PooledIsLooping(cfg: Setup, c: nat, cl: Client, rec: Record)
    requires Ok(cfg, c, cl, rec) && cl.cur.Got?
             && (rec.stage.Pooled? || rec.stage.Scheduled? || rec.stage.Released? || rec.stage.Performed?)
    ensures 1 <= cfg.Rounds()
  {
    hide Offset, Iterations;
  }

  /** A forwarder that is manned can go on while a request is not answered, with this one or another. */
  lemma ForwarderGoesOn(cfg: Setup, s: State, f: nat, a: nat) returns (l: Label)
    requires Inv(cfg, s) && s.fault == NoFault && cfg.Manned() && f < |s.fw| && a < |s.fw[f].records|
             && Live(s.fw[f].records[a])
    ensures Enabled(cfg, s, l)
  {
    hide Inv, Tables, Ok, Window, Iterations, ShutdownThreshold, ForwarderOf;
    OwnerOf(cfg, s, f, a);
    TablesOf(cfg, s, f);
    var rec := s.fw[f].records[a];
    if rec.stage.Incoming? {
      WaitingIsQueued(s.fw[f], a);
      l := HandlerGoesOn(cfg, s, f);
    } else if AtHandler(rec) {
      l := ServiceGoesOn(cfg, s, f, a);
    } else if AtWorker(rec) {
      l := JobGoesOn(cfg, s, f, a);
    } else {
      PooledIsLooping(cfg, rec.req.rank, s.cl[rec.req.rank], rec);
      if rec.stage.Pooled? {
        WaitingIsPooled(s.fw[f], a);
        l := PoolGoesOn(cfg, s, f);
      } else if rec.stage.Scheduled? {
        WaitingIsScheduled(s.fw[f], a);
        l := Label.Release(f, rec.req.id);
      } else {
        l := ReleasedGoesOn(cfg, s, f, a, rec.stage.k);
      }
    }
  }

  lemma WaitingIsQueued(fw: Forwarder, a: nat)
    requires Tables(fw) && a < |fw.records| && fw.records[a].stage.Incoming?
    ensures fw.taken < |fw.records|
  {
  }

  lemma WaitingIsPooled(fw: Forwarder, a: nat)
    requires Tables(fw) && a < |fw.records| && fw.records[a].stage.Pooled?
    ensures fw.pulled < |fw.jobs|
  {
    hide Core;
    assert RecordManned(fw, a);
  }

  lemma WaitingIsScheduled(fw: Forwarder, a: nat)
    requires Tables(fw) && a < |fw.records| && fw.records[a].stage.Scheduled?
    ensures fw.records[a].req.id in fw.agios
  {
  }

  lemma ReleasedGoesOn(cfg: Setup, s: State, f: nat, a: nat, k: nat) returns (l: Label)
    requires Inv(cfg, s) && s.fault == NoFault && 1 <= cfg.workers && f < |s.fw| && a < |s.fw[f].records|
    requires s.fw[f].records[a].stage == Released(k) || s.fw[f].records[a].stage == Performed(k)
    ensures Enabled(cfg, s, l)
  {
    hide Inv, Tables, Ok, Window, BatchOf;
    TablesOf(cfg, s, f);
    var fw := s.fw[f];
    DispatcherIs(fw, a);
    match fw.dispatcher
    case Taken(_) => l := Label.Lookup(f);
    case Found(_) => l := Label.Gather(f);
    case Idle =>
      if Issued(fw) <= k {
        l := Label.Pop(f);
      } else {
        StillInBatch(fw, a, k);
        var j := BatchOf(fw.batches, k);
        BatchIs(fw, j);
        if fw.batches[j].progress.On? { l := BatchGoesOn(cfg, s, f, j); } else { l := PoolGoesOn(cfg, s, f); }
      }
  }

  lemma DispatcherIs(fw: Forwarder, a: nat)
    requires Tables(fw) && a < |fw.records| && (fw.records[a].stage.Released? || fw.records[a].stage.Performed?)
    ensures fw.records[a].stage.k < |fw.ready|
    ensures if fw.dispatcher == Idle then fw.popped == Issued(fw) else 1 <= fw.popped <= |fw.ready|
  {
    assert ReleasedAt(fw, fw.records[a]);
  }

  lemma BatchIs(fw: Forwarder, j: nat)
    requires Tables(fw) && j < |fw.batches| && fw.batches[j].replied < |fw.batches[j].items|
    ensures fw.batches[j].progress.On? || fw.pulled < |fw.jobs|
  {
    hide Core;
    assert BatchManned(fw, j);
  }

  /** Whatever a client waits for, someone can take a step. */
  lemma SomeoneGoesOn(cfg: Setup, s: State, c: nat) returns (l: Label)
    requires Inv(cfg, s) && s.fault == NoFault && cfg.Manned() && IsClient(cfg, s, c) && HasRoom(s.fw[cfg.Home(c)])
    requires s.cl[c].pc != Ready && s.cl[c].pc != AtBarrier
    ensures Enabled(cfg, s, l)
  {
    hide Inv, Tables, Offset, Iterations, ShutdownThreshold, ForwarderOf;
    OkOf(cfg, s, c);
    var cl := s.cl[c];
    if cl.cur == Sent {
      l := Listen(c);
      RoomIsWindow(s.fw[cfg.Home(c)], c);
    } else if RecOf(cfg, s, c).stage.Finished? {
      FirstMatches(cl.toClient, Awaited(cl));
      l := Label.Recv(c);
    } else {
      CurrentRecord(cfg, s, c);
      l := ForwarderGoesOn(cfg, s, cfg.Home(c), cl.cur.addr);
    }
  }

  lemma RoomIsWindow(fw: Forwarder, c: nat)
    requires HasRoom(fw)
    ensures forall msg :: Window(Accept(fw, c, msg))
  {
  }

  lemma CurrentRecord(cfg: Setup, s: State, c: nat)
    requires Inv(cfg, s) && IsClient(cfg, s, c) && s.cl[c].cur.Got?
    ensures s.cl[c].cur.addr < |s.fw[cfg.Home(c)].records|
    ensures RecOf(cfg, s, c) == s.fw[cfg.Home(c)].records[s.cl[c].cur.addr] && RecOf(cfg, s, c).req.rank == c
  {
    hide Tables, Ok;
    assert ClientOk(cfg, s, c);
    RankOf(cfg, s, c);
  }

  /** The client that is furthest behind. */
  lemma {:induction false} Hindmost(cl: seq<Client>, m: nat) returns (c: nat)
    requires 1 <= m <= |cl|
    ensures c < m && forall d :: 0 <= d < m ==> Order(cl[c].phase) <= Order(cl[d].phase)
  {
    if m == 1 {
      c := 0;
    } else {
      c := Hindmost(cl, m - 1);
      if Order(cl[m - 1].phase) < Order(cl[c].phase) { c := m - 1; }
    }
  }

  predicate AllComplete(s: State) {
    (forall c :: 0 <= c < |s.cl| ==> s.cl[c].phase == Done) && (forall f :: 0 <= f < |s.fw| ==> s.fw[f].stopped)
  }

  /**
   The pipeline never gets stuck if every forwarder has a handler, and a pool thread if there is
   anything to read or write: as long as identifiers last and no fault has occurred, some step
   is possible until every client is done and every forwarder has stopped.
   */
  lemma NeverStuck(cfg: Setup, run: seq<State>, i: nat)
    requires IsRun(cfg, run) && i < |run| && run[i].fault == NoFault && cfg.Manned()
    requires forall f :: 0 <= f < |run[i].fw| ==> HasRoom(run[i].fw[f])
    ensures AllComplete(run[i]) || exists l :: Enabled(cfg, run[i], l)
  {
    hide IsRun, Inv, Ok, Tables, HasRoom, ShutdownThreshold, ForwarderOf, Iterations;
    RunKeepsInv(cfg, run, i);
    var s := run[i];
    SizeOf(cfg, s);
    ThresholdIsPositive(cfg.worldSize, cfg.forwarders);
    if c :| 0 <= c < |s.cl| && s.cl[c].pc != Ready && s.cl[c].pc != AtBarrier {
      IsOne(cfg, s, c);
      var l := SomeoneGoesOn(cfg, s, c);
      assert Enabled(cfg, s, l);
    } else if c :| 0 <= c < |s.cl| && s.cl[c].pc == Ready && s.cl[c].phase != Done {
      IsOne(cfg, s, c);
      assert Enabled(cfg, s, Label.Go(c));
    } else if c :| 0 <= c < |s.cl| && s.cl[c].toServer != [] {
      IsOne(cfg, s, c);
      SignOffIsHeard(cfg, s, c);
      assert Enabled(cfg, s, Listen(c));
    } else {
      var c := Hindmost(s.cl, |s.cl|);
      if s.cl[c].phase != Done {
        IsOne(cfg, s, c);
        HindmostCrosses(cfg, s, c);
        assert Enabled(cfg, s, Label.Cross(c));
      } else {
        forall f | 0 <= f < |s.fw| ensures s.fw[f].stopped { StoppedIsAllGone(cfg, s, f); }
        assert AllComplete(s);
      }
    }
  }

  lemma SignOffIsHeard(cfg: Setup, s: State, c: nat)
    requires Inv(cfg, s) && s.fault == NoFault && IsClient(cfg, s, c) && s.cl[c].toServer != []
    requires s.cl[c].pc == Ready || s.cl[c].pc == AtBarrier
    ensures Enabled(cfg, s, Listen(c))
  {
    hide Inv;
    OkOf(cfg, s, c);
    FirstMatches(s.cl[c].toServer, TAG_REQUEST);
  }

  lemma HindmostCrosses(cfg: Setup, s: State, c: nat)
    requires Inv(cfg, s) && s.fault == NoFault && IsClient(cfg, s, c) && s.cl[c].phase != Done
    requires forall d :: 0 <= d < |s.cl| ==> Order(s.cl[c].phase) <= Order(s.cl[d].phase)
    requires forall d :: 0 <= d < |s.cl| ==> s.cl[d].pc == AtBarrier || s.cl[d].phase == Done
    ensures Enabled(cfg, s, Label.Cross(c))
  {
    hide Inv;
    forall d | 0 <= d < |s.cl|
      ensures Order(s.cl[c].phase) < Order(s.cl[d].phase) || (s.cl[d].phase == s.cl[c].phase && s.cl[d].pc == AtBarrier)
    {
      assert Order(s.cl[c].phase) <= Order(s.cl[d].phase);
    }
  }
}
