/** Every step of a forwarder keeps all that its tables, its threads and its records must agree on. */
module ForwarderSteps {
  import opened Forge
  import opened Protocol
  import opened Forwarding
  import opened TableSteps
  import opened Staffing

  lemma SetRecordKeeps(fw: Forwarder, a: nat, rec: Record)
    requires Tables(fw) && a < |fw.records| && Aside(fw.records[a], rec) && SameSpot(fw.records[a], rec)
    ensures Tables(SetRecord(fw, a, rec))
  {
    hide Core, Staffed;
    AsideKeeps(fw, a, rec);
    SpotKeeps(fw, a, rec);
  }

  /** Steps that touch neither records nor threads. */
  lemma ElsewhereKeeps(fw: Forwarder, fw': Forwarder)
    requires Tables(fw)
    requires fw' == fw.(handles := fw'.handles, descriptors := fw'.descriptors,
                        signOffs := fw'.signOffs, stopped := fw'.stopped)
    ensures Tables(fw')
  {
    SameTablesKeep(fw, fw');
    SpotsKeep(fw, fw');
  }

  lemma AcceptOk(fw: Forwarder, rank: nat, msg: Message)
    requires Tables(fw) && Window(Accept(fw, rank, msg))
    ensures Tables(Accept(fw, rank, msg))
  {
    hide Core, Staffed, Window;
    AcceptKeeps(fw, rank, msg);
    SpotsKeep(fw, Accept(fw, rank, msg));
  }

  lemma TakeOk(fw: Forwarder, h: nat)
    requires Tables(fw) && fw.taken < |fw.records| && h < |fw.handlers| && fw.handlers[h] == Free
    ensures fw.records[fw.taken].stage == Incoming && Tables(Take(fw, h))
  {
    hide Core, Staffed;
    TakeKeeps(fw, h);
    TakeStaffs(fw, h);
  }

  lemma ToPoolOk(fw: Forwarder, a: nat)
    requires Tables(fw) && a < |fw.records| && fw.records[a].stage == Held
    ensures Tables(ToPool(fw, a))
  {
    hide Core, Staffed;
    AsideKeeps(fw, a, fw.records[a].(stage := Pooled(|fw.jobs|)));
    ReassignedKeeps(SetStage(fw, a, Pooled(|fw.jobs|)), ToPool(fw, a));
    ToPoolStaffs(fw, a);
  }

  lemma ConcludeOk(fw: Forwarder, a: nat)
    requires Tables(fw) && a < |fw.records| && (fw.records[a].stage.Opened? || fw.records[a].stage.Closed?)
    ensures Tables(Conclude(fw, a))
  {
    hide Core, Staffed;
    AsideKeeps(fw, a, Answer(fw.records[a]));
    ReassignedKeeps(SetRecord(fw, a, Answer(fw.records[a])), Conclude(fw, a));
    ConcludeStaffs(fw, a);
  }

  /**
   The job is due: a request that was passed to the pool, a batch of which nothing is performed, or one performed
   and not answered.
   */
  predicate Due(fw: Forwarder, job: Job, k: nat) {
    match job
    case HandleJob(a) => a < |fw.records| && fw.records[a].stage == Pooled(k)
    case DispatchJob(j) => j < |fw.batches| && fw.batches[j].progress == Queued(k) && fw.batches[j].performed == 0
    case CallbackJob(j) =>
      && j < |fw.batches| && fw.batches[j].progress == Queued(k)
      && fw.batches[j].performed == |fw.batches[j].items| && fw.batches[j].replied == 0
  }

  lemma JobIsDue(fw: Forwarder, k: nat)
    requires Staffed(fw) && fw.pulled <= k < |fw.jobs|
    ensures Due(fw, fw.jobs[k], k)
  {
    assert JobOk(fw, k);
    match fw.jobs[k]
    case HandleJob(_) =>
    case DispatchJob(j) => assert BatchManned(fw, j);
    case CallbackJob(j) => assert BatchManned(fw, j);
  }

  /** A pool thread begins a job that is due. */
  lemma PullOk(fw: Forwarder, w: nat)
    requires Tables(fw) && CanPull(fw, w)
    ensures Tables(Pull(fw, w))
    ensures Due(fw, fw.jobs[fw.pulled], fw.pulled)
  {
    hide Core, Staffed;
    JobIsDue(fw, fw.pulled);
    PullFinds(fw, w);
    PullStaffs(fw, w);
    var job := fw.jobs[fw.pulled];
    if job.HandleJob? {
      var rec := fw.records[job.addr].(stage := Begun, thread := w);
      AsideKeeps(fw, job.addr, rec);
      ReassignedKeeps(SetRecord(fw, job.addr, rec), Pull(fw, w));
    } else {
      ReassignedKeeps(fw, Pull(fw, w));
    }
  }

  lemma RegisterOk(fw: Forwarder, a: nat)
    requires Tables(fw) && a < |fw.records| && (fw.records[a].stage.IdSent? || fw.records[a].stage.Received?)
    ensures fw.records[a].req.id !in fw.requests && Tables(Register(fw, a))
  {
    hide Core, Staffed;
    RegisterKeeps(fw, a);
    SpotsKeep(fw, Register(fw, a));
  }

  lemma ScheduleOk(fw: Forwarder, a: nat)
    requires Tables(fw) && a < |fw.records| && fw.records[a].stage.Registered?
    ensures Tables(Schedule(fw, a))
  {
    hide Core, Staffed;
    ScheduleKeeps(fw, a);
    ScheduleStaffs(fw, a);
  }

  lemma ReleaseOk(fw: Forwarder, id: nat)
    requires Tables(fw) && id in fw.agios
    ensures At(fw, id, Scheduled) && Tables(Release(fw, id))
  {
    hide Core, Staffed;
    ReleaseKeeps(fw, id);
    SpotsKeep(fw, Release(fw, id));
  }

  lemma PopOk(fw: Forwarder)
    requires Tables(fw) && fw.dispatcher == Idle && fw.popped < |fw.ready|
    ensures Tables(Pop(fw))
  {
    hide Core, Staffed;
    PopKeeps(fw);
    SpotsKeep(fw, Pop(fw));
  }

  lemma LookupOk(fw: Forwarder)
    requires Tables(fw) && fw.dispatcher.Taken?
    ensures Known(fw, fw.dispatcher.id) && Tables(Lookup(fw))
  {
    hide Core, Staffed;
    LookupKeeps(fw);
    SpotsKeep(fw, Lookup(fw));
  }

  lemma GatherOk(fw: Forwarder)
    requires Tables(fw) && fw.dispatcher.Found? && 1 <= fw.popped <= |fw.ready|
    ensures GatherFinds(fw) && Tables(Gather(fw))
  {
    hide Core, Staffed, Gathered;
    GatherBuilds(fw);
    GatherKeeps(fw);
    GatherStaffs(fw);
  }

  lemma PerformOk(fw: Forwarder, j: nat, data: seq<char>)
    requires Tables(fw) && CanPerform(fw, j)
    ensures Tables(Perform(fw, j, data))
  {
    hide Core, Staffed;
    PerformFindsIn(fw, j);
    PerformKeeps(fw, j, data);
    PerformStaffs(fw, j, data);
  }

  lemma PerformFindsIn(fw: Forwarder, j: nat)
    requires Core(fw) && j < |fw.batches| && fw.batches[j].performed < |fw.batches[j].items|
    ensures var b := fw.batches[j];
            var item := b.items[b.performed];
            && b.replied == 0 && item.addr < |fw.records| && fw.records[item.addr].req == item.req
            && fw.records[item.addr].stage == Released(b.start + b.performed)
  {
    PerformFinds(fw, j);
    assert BatchOk(fw, j);
  }

  lemma CompleteOk(fw: Forwarder, j: nat)
    requires Tables(fw) && CanReply(fw, j)
    ensures Known(fw, Replying(fw, j)) && Tables(Complete(fw, j))
  {
    hide Core, Staffed;
    CompleteKeeps(fw, j);
    ReplyFindsIn(fw, j);
    CompleteStaffs(fw, j);
  }

  lemma ReplyFindsIn(fw: Forwarder, j: nat)
    requires Core(fw) && CanReply(fw, j)
    ensures Known(fw, Replying(fw, j))
    ensures var b := fw.batches[j];
            && fw.requests[Replying(fw, j)] == b.items[b.replied].addr
            && fw.records[b.items[b.replied].addr].stage == Performed(b.start + b.replied)
  {
    ReplyFinds(fw, j);
  }
}
