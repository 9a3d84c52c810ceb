/**
 Which runs complete. Without a handler no open is ever answered, and without a pool thread
 no read or write is; with both, every run that goes on as long as it can completes.
 */
module Manning {
  import opened Forge
  import opened Offsets
  import opened Protocol
  import opened Conversation
  import opened Forwarding
  import opened ForwarderSteps
  import opened Pipeline
  import opened Invariant
  import opened Steps
  import opened Guarantees
  import opened Conservation
  import opened Termination
  import opened Budget

  // ---------- what cannot happen without threads ----------

  function FirstPhase(cfg: Setup): Phase {
    if cfg.write then WriteOpen else ReadOpen
  }

  predicate OpensOrCloses(rec: Record) {
    rec.req.msg.op == OPEN || rec.req.msg.op == CLOSE
  }

  /**
   Without a handler a request stays where it arrived; without a pool thread a read or a write gets no further
   than the pool.
   */
  predicate RecordStuck(cfg: Setup, rec: Record) {
    || rec.stage.Incoming?
    || (1 <= cfg.handlers
        && (rec.stage.Held? || rec.stage.Pooled?
          || (OpensOrCloses(rec) && (rec.stage.Opened? || rec.stage.Closed? || rec.stage.Finished?))))
  }

  /**
   Without a handler a client has no file open; without a pool thread it gets no further than its first read or
   write.
   */
  predicate ClientStuck(cfg: Setup, cl: Client) {
    || (cl.phase == FirstPhase(cfg) && (cl.pc == AtBarrier ==> 1 <= cfg.handlers))
    || (1 <= cfg.handlers && cl.phase == Next(cfg, FirstPhase(cfg)) && cl.i == 0 && (cl.pc == Ready || cl.pc == WaitId))
  }

  ghost predicate RecordsStuck(cfg: Setup, s: State) {
    forall f, a :: 0 <= f < |s.fw| && 0 <= a < |s.fw[f].records| ==> RecordStuck(cfg, s.fw[f].records[a])
  }

  ghost predicate Stuck(cfg: Setup, s: State) {
    && RecordsStuck(cfg, s)
    && forall c :: 0 <= c < |s.cl| ==> ClientStuck(cfg, s.cl[c])
  }

  lemma GoStuck(cfg: Setup, c: nat, cl: Client, rec: Record)
    requires Ok(cfg, c, cl, rec) && cl.pc == Ready && cl.phase != Done && ClientStuck(cfg, cl) && !cfg.Manned()
    ensures ClientStuck(cfg, Protocol.Go(cfg, c, cl))
  {
    hide Iterations, Offset;
  }

  lemma RecvStuck(cfg: Setup, c: nat, cl: Client, rec: Record)
    requires Ok(cfg, c, cl, rec) && CanRecv(cl) && ClientStuck(cfg, cl) && !cfg.Manned() && RecordStuck(cfg, rec)
    ensures ClientStuck(cfg, Protocol.Recv(cfg, c, cl))
  {
    hide Iterations, Offset, Match;
    RecvKeeps(cfg, c, cl, rec);
    FirstMatches(cl.toClient, Awaited(cl));
  }

  lemma CrossStuck(cfg: Setup, cl: Client)
    requires cl.pc == AtBarrier && ClientStuck(cfg, cl)
    ensures ClientStuck(cfg, Protocol.Cross(cfg, cl))
  {
  }

  // ---------- every step leaves everything stuck ----------

  /** Of the steps on a request, only those of a handler can find one. */
  lemma OnlyHandlersFind(cfg: Setup, s: State, l: Label)
    requires Inv(cfg, s) && Enabled(cfg, s, l) && OnRecord(l) && RecordsStuck(cfg, s)
    ensures l.Take? || l.Serve? || l.SendHandle? || l.AckClose?
    ensures 1 <= cfg.handlers
  {
    hide Inv, Tables, Enabled, Ok;
    IsOnRecord(cfg, s, l);
    TablesOf(cfg, s, l.f);
    FindRecord(cfg, s, l);
    assert RecordStuck(cfg, s.fw[l.f].records[RecordIn(s, l)]);
    if l.Take? { TakeHasHandler(cfg, s, l.f, l.h); }
  }

  lemma TakeHasHandler(cfg: Setup, s: State, f: nat, h: nat)
    requires Enabled(cfg, s, Label.Take(f, h)) && ForwarderOk(cfg, s.fw[f])
    ensures 1 <= cfg.handlers
  {
    hide Tables;
  }

  lemma IsOnRecord(cfg: Setup, s: State, l: Label)
    requires Enabled(cfg, s, l) && OnRecord(l)
    ensures l.f < |s.fw|
    ensures l.Perform? ==> CanPerform(s.fw[l.f], l.j)
    ensures l.Complete? ==> CanReply(s.fw[l.f], l.j)
  {
    hide Match, Window, AllArrived, CanRecv, CanPull;
  }

  /** One request goes on, and stays stuck. */
  lemma OneLeavesStuck(cfg: Setup, s: State, s': State, f: nat, a: nat)
    requires RecordsStuck(cfg, s) && f < |s.fw| == |s'.fw| && a < |s.fw[f].records| == |s'.fw[f].records|
    requires s'.fw == s.fw[f := s'.fw[f]] && s'.fw[f].records == s.fw[f].records[a := s'.fw[f].records[a]]
    requires RecordStuck(cfg, s'.fw[f].records[a])
    ensures RecordsStuck(cfg, s')
  {
    hide RecordStuck;
  }

  lemma HandlerLeavesStuck(cfg: Setup, s: State, l: Label)
    requires Enabled(cfg, s, l) && (l.Take? || l.Serve? || l.SendHandle? || l.AckClose?)
    requires RecordsStuck(cfg, s) && 1 <= cfg.handlers
    ensures RecordsStuck(cfg, Do(cfg, s, l))
  {
    hide Match, Window, AllArrived, CanRecv, RecordsStuck;
    match l
    case Take(f, h) => OneLeavesStuck(cfg, s, Do(cfg, s, l), f, s.fw[f].taken);
    case Serve(f, a, fd) => ServiceLeavesStuck(cfg, s, f, a, fd);
    case SendHandle(f, a) => ReplyLeavesStuck(cfg, s, f, a, Packet(TAG_HANDLE, Num(s.fw[f].records[a].stage.fh)));
    case AckClose(f, a, ack) => ReplyLeavesStuck(cfg, s, f, a, Packet(TAG_ACK, Num(ack)));
  }

  lemma ServiceLeavesStuck(cfg: Setup, s: State, f: nat, a: nat, fd: int)
    requires HasRecord(s, f, a) && s.fault == NoFault && RecordsStuck(cfg, s) && 1 <= cfg.handlers
    ensures RecordsStuck(cfg, DoServe(s, f, a, fd))
  {
    hide RecordsStuck;
    var s' := DoServe(s, f, a, fd);
    if s'.fault == FailedToClose { CrashLeavesStuck(cfg, s, s'); } else { OneLeavesStuck(cfg, s, s', f, a); }
  }

  lemma CrashLeavesStuck(cfg: Setup, s: State, s': State)
    requires RecordsStuck(cfg, s) && s'.fw == s.fw
    ensures RecordsStuck(cfg, s')
  {
  }

  lemma ReplyLeavesStuck(cfg: Setup, s: State, f: nat, a: nat, p: Packet)
    requires HasRecord(s, f, a) && RecordsStuck(cfg, s)
             && (s.fw[f].records[a].stage.Opened? || s.fw[f].records[a].stage.Closed?)
    ensures RecordsStuck(cfg, SendTo(s, f, a, p, Conclude(s.fw[f], a)))
  {
    hide RecordsStuck;
    IsStuck(cfg, s, f, a);
    OneLeavesStuck(cfg, s, SendTo(s, f, a, p, Conclude(s.fw[f], a)), f, a);
  }

  lemma IsStuck(cfg: Setup, s: State, f: nat, a: nat)
    requires RecordsStuck(cfg, s) && f < |s.fw| && a < |s.fw[f].records|
    ensures RecordStuck(cfg, s.fw[f].records[a])
  {
  }

  /** A pool thread cannot begin a read or a write: there is none, or nothing has been passed to the pool. */
  lemma NothingIsPulled(cfg: Setup, s: State, f: nat, w: nat)
    requires Inv(cfg, s) && Enabled(cfg, s, Label.Pull(f, w)) && RecordsStuck(cfg, s) && !cfg.Manned()
    ensures Do(cfg, s, Label.Pull(f, w)).fw[f].records == s.fw[f].records
  {
    hide Inv, Tables, Ok, Iterations, RecordsStuck, RecordStuck;
    TablesOf(cfg, s, f);
    PullOk(s.fw[f], w);
    var job := s.fw[f].jobs[s.fw[f].pulled];
    if job.HandleJob? { NoneIsPooled(cfg, s, f, job.addr); }
  }

  lemma NoneIsPooled(cfg: Setup, s: State, f: nat, a: nat)
    requires RecordsStuck(cfg, s) && f < |s.fw| && a < |s.fw[f].records| && cfg.handlers == 0
    ensures !s.fw[f].records[a].stage.Pooled?
  {
    IsStuck(cfg, s, f, a);
  }

  lemma PullLeavesStuck(cfg: Setup, s: State, f: nat, w: nat)
    requires Inv(cfg, s) && Enabled(cfg, s, Label.Pull(f, w)) && RecordsStuck(cfg, s) && !cfg.Manned()
    ensures RecordsStuck(cfg, Do(cfg, s, Label.Pull(f, w)))
  {
    hide Inv, Config.Manned, CanPull, RecordStuck, Forwarding.Pull;
    NothingIsPulled(cfg, s, f, w);
  }

  lemma ElseLeavesStuck(cfg: Setup, s: State, l: Label)
    requires Enabled(cfg, s, l) && RecordsStuck(cfg, s)
    requires l.Go? || l.Recv? || l.Cross? || l.Listen? || l.Pop? || l.Lookup? || l.Gather?
    ensures RecordsStuck(cfg, Do(cfg, s, l))
  {
    hide Match, Window, AllArrived, CanRecv, Gathered, ForwarderOf, ShutdownThreshold, Protocol.Go, Protocol.Recv,
      Protocol.Cross, DataAccepted;
  }

  lemma StepLeavesRecordsStuck(cfg: Setup, s: State, l: Label)
    requires Inv(cfg, s) && Enabled(cfg, s, l) && RecordsStuck(cfg, s) && !cfg.Manned()
    ensures RecordsStuck(cfg, Do(cfg, s, l))
  {
    hide Inv, Enabled, Do, RecordsStuck, Config.Manned;
    if OnRecord(l) {
      OnlyHandlersFind(cfg, s, l);
      HandlerLeavesStuck(cfg, s, l);
    } else if l.Pull? {
      PullLeavesStuck(cfg, s, l.f, l.w);
    } else {
      ElseLeavesStuck(cfg, s, l);
    }
  }

  lemma ClientLeavesStuck(cfg: Setup, s: State, l: Label)
    requires Inv(cfg, s) && Enabled(cfg, s, l) && Stuck(cfg, s) && !cfg.Manned() && (l.Go? || l.Recv? || l.Cross?)
    ensures var cl := Do(cfg, s, l).cl; |cl| == |s.cl| && forall c :: 0 <= c < |cl| ==> ClientStuck(cfg, cl[c])
  {
    hide Inv, Ok, Match, AllArrived, ClientStuck, RecordStuck, ForwarderOf, Config.Manned, Protocol.Go, Protocol.Recv,
      Protocol.Cross, DataAccepted;
    OkOf(cfg, s, l.c);
    var rec := RecOf(cfg, s, l.c);
    match l
    case Go(c) => GoStuck(cfg, c, s.cl[c], rec);
    case Recv(c) => RecvNeedsRecord(cfg, c, s.cl[c], rec); CurrentRecord(cfg, s, c); RecvStuck(cfg, c, s.cl[c], rec);
    case Cross(c) => CrossStuck(cfg, s.cl[c]);
  }

  lemma RecvNeedsRecord(cfg: Setup, c: nat, cl: Client, rec: Record)
    requires Ok(cfg, c, cl, rec) && CanRecv(cl)
    ensures cl.cur.Got?
  {
    hide Match;
    RecvKeeps(cfg, c, cl, rec);
  }

  lemma ListenLeavesStuck(cfg: Setup, s: State, c: nat)
    requires Enabled(cfg, s, Listen(c)) && Stuck(cfg, s)
    ensures var cl := Do(cfg, s, Listen(c)).cl; |cl| == |s.cl| && forall c :: 0 <= c < |cl| ==> ClientStuck(cfg, cl[c])
  {
    hide Match, Window, RecordsStuck, ForwarderOf, ShutdownThreshold;
  }

  lemma StepLeavesStuck(cfg: Setup, s: State, l: Label)
    requires Inv(cfg, s) && Enabled(cfg, s, l) && Stuck(cfg, s) && !cfg.Manned()
    ensures Stuck(cfg, Do(cfg, s, l))
  {
    hide Inv, Enabled, Do, RecordsStuck, Config.Manned;
    StepLeavesRecordsStuck(cfg, s, l);
    if OfForwarder(l) {
      ForwarderAsksNothing(cfg, s, l);
      var cl := Do(cfg, s, l).cl;
      forall c | 0 <= c < |cl| ensures ClientStuck(cfg, cl[c]) { assert SamePoint(s.cl[c], cl[c]); }
    } else if l.Listen? {
      ListenLeavesStuck(cfg, s, l.c);
    } else {
      ClientLeavesStuck(cfg, s, l);
    }
  }

  lemma {:induction false} RunIsStuck(cfg: Setup, run: seq<State>, i: nat)
    requires IsRun(cfg, run) && i < |run| && !cfg.Manned()
    ensures Stuck(cfg, run[i])
  {
    hide Inv, Enabled, Do, Config.Manned;
    if i > 0 {
      RunIsStuck(cfg, run, i - 1);
      RunKeepsInv(cfg, run, i - 1);
      assert Pipeline.Follows(cfg, run[i - 1], run[i - 1 + 1]);
      var l :| Enabled(cfg, run[i - 1], l) && run[i] == Do(cfg, run[i - 1], l);
      StepLeavesStuck(cfg, run[i - 1], l);
    }
  }

  /**
   Without a handler, or without a pool thread when there is anything to read or write, no run
   completes: at all times every client is in its first two phases and no read or write has begun.
   */
  lemma NoneCompletes(cfg: Setup, run: seq<State>, i: nat)
    requires IsRun(cfg, run) && i < |run| && !cfg.Manned()
    ensures Stuck(cfg, run[i]) && !AllComplete(run[i])
  {
    hide IsRun, Inv, Config.Manned, RecordsStuck;
    RunIsStuck(cfg, run, i);
    RunKeepsInv(cfg, run, i);
    SizeOf(cfg, run[i]);
    ThresholdIsPositive(cfg.worldSize, cfg.forwarders);
    assert ClientStuck(cfg, run[i].cl[0]);
  }

  // ---------- which runs complete ----------

  /**
   In a set-up with room for its requests, and unless a run that only reads finds other data than
   its letters, a run that goes on until no step is possible completes if and only if the
   forwarders are manned; then each has received its whole number of requests and answered each once.
   */
  lemma CompletesExactly(cfg: Setup, run: seq<State>)
    requires IsRun(cfg, run) && Roomy(cfg) && (cfg.write || !cfg.validate || !Differs(cfg))
    requires Halted(cfg, run[|run| - 1])
    ensures var s := run[|run| - 1];
            && (AllComplete(s) <==> cfg.Manned())
            && (cfg.Manned() ==>
                  s.fault == NoFault && AllAnswered(s)
                    && forall f :: 0 <= f < |s.fw| ==> |s.fw[f].records| == RequestsPerForwarder(cfg))
  {
    hide IsRun, Enabled, Differs, HasRoom, AllComplete, AllAnswered, Config.Manned, RequestsPerForwarder, Roomy, Stuck;
    RunIsSome(cfg, run);
    var i := |run| - 1;
    if cfg.Manned() {
      forall f | 0 <= f < |run[i].fw| ensures HasRoom(run[i].fw[f]) { RoomyHasRoom(cfg, run, i, f); }
      EveryFullRunCompletes(cfg, run);
      forall f | 0 <= f < |run[i].fw|
        ensures |run[i].fw[f].records| == RequestsPerForwarder(cfg)
      {
        var _ := AllRequestsWereMade(cfg, run, i, f);
      }
    } else {
      NoneCompletes(cfg, run, i);
    }
  }

  /** Every run goes on to one after which no step is possible, whichever steps are taken. */
  lemma {:induction false} RunGoesOn(cfg: Setup, run: seq<State>) returns (full: seq<State>)
    requires IsRun(cfg, run)
    ensures IsRun(cfg, full) && run <= full && Halted(cfg, full[|full| - 1])
    decreases Bound(cfg) + 1 - |run|
  {
    hide Init, Enabled, Do, Bound;
    EveryRunEnds(cfg, run);
    var s := run[|run| - 1];
    if l :| Enabled(cfg, s, l) {
      var more := run + [Do(cfg, s, l)];
      assert Pipeline.Follows(cfg, s, Do(cfg, s, l));
      forall i | 0 <= i < |more| - 1 ensures Pipeline.Follows(cfg, more[i], more[i + 1]) {
        if i < |run| - 1 { assert Pipeline.Follows(cfg, run[i], run[i + 1]); }
      }
      EveryRunEnds(cfg, more);
      full := RunGoesOn(cfg, more);
    } else {
      full := run;
    }
  }
}
