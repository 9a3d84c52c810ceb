/**
 Every run of the pipeline ends: each step takes something off a weight that the set-up
 bounds. Together with the absence of deadlock, a run that goes on as long as it can
 completes the whole workload.
 */
module Termination {
  import opened Forge
  import opened Offsets
  import opened Protocol
  import opened Conversation
  import opened Forwarding
  import opened ForwarderSteps
  import opened Pipeline
  import opened Invariant
  import opened Steps
  import opened Guarantees
  import opened Conservation

  // ---------- the weight ----------

  function StageWeight(stage: Stage): nat {
    match stage
    case Incoming => 24
    case Held => 23
    case Pooled(_) => 21
    case Begun => 20
    case IdSent | AwaitBuffer => 19
    case Received => 18
    case Registered => 17
    case Scheduled => 16
    case Opened(_) | Closed => 12
    case Released(_) => 10
    case Performed(_) => 8
    case Finished => 6
  }

  function RequestWeight(cl: Client, rec: Record): nat {
    match cl.cur
    case Nothing => 0
    case Sent => 31
    case Got(_) => StageWeight(rec.stage) + if cl.pc == WaitId then 2 else 1
  }

  /** More than all that a client does between two barriers. */
  function PhaseBudget(cfg: Setup): nat {
    50 * cfg.Rounds() + 100
  }

  function PhaseWeight(p: Phase, budget: nat): nat {
    match p
    case WriteOpen => 7 * budget
    case Writing => 6 * budget
    case WriteClose => 5 * budget
    case ReadOpen => 4 * budget
    case Reading => 3 * budget
    case ReadClose => 2 * budget
    case SigningOff => budget
    case Done => 0
  }

  /** What is left of the phase. */
  function PointWeight(rounds: nat, cl: Client, rec: Record): int {
    if cl.pc == AtBarrier then 1
    else if cl.pc == Ready then
      if Looping(cl.phase) then 50 * (rounds - cl.i) + 2 else if cl.phase == Done then 0 else 60
    else
      (if Looping(cl.phase) then 50 * (rounds - cl.i) - 50 else 0) + 3 + RequestWeight(cl, rec)
  }

  function MailWeight(cl: Client): nat {
    if Order(cl.phase) >= 6 && cl.toServer != [] then 1 else 0
  }

  function ClientWeight(cfg: Setup, cl: Client, rec: Record): int {
    PhaseWeight(cl.phase, PhaseBudget(cfg)) + PointWeight(cfg.Rounds(), cl, rec) + MailWeight(cl)
  }

  function ForwarderWeight(fw: Forwarder): int {
    5 * (|fw.ready| - fw.popped) + (|fw.jobs| - fw.pulled) +
    match fw.dispatcher case Idle => 0 case Taken(_) => 4 case Found(_) => 3
  }

  ghost function ClientSum(cfg: Setup, s: State, n: nat): int
    requires Sized(cfg, s) && n <= |s.cl|
  {
    if n == 0 then 0 else ClientSum(cfg, s, n - 1) + ClientWeight(cfg, s.cl[n - 1], RecOf(cfg, s, n - 1))
  }

  function ForwarderSum(fw: seq<Forwarder>): int {
    if fw == [] then 0 else ForwarderSum(fw[..|fw| - 1]) + ForwarderWeight(fw[|fw| - 1])
  }

  ghost function Weight(cfg: Setup, s: State): int
    requires Sized(cfg, s)
  {
    ClientSum(cfg, s, |s.cl|) + ForwarderSum(s.fw) + if s.fault == NoFault then 1 else 0
  }

  // ---------- sums ----------

  lemma {:induction false} ClientSumChanges(cfg: Setup, s: State, s': State, c: nat, n: nat)
    requires Sized(cfg, s) && Sized(cfg, s') && n <= |s.cl|
    requires forall d :: 0 <= d < |s.cl| && d != c ==> Alike(cfg, s, s', d)
    ensures ClientSum(cfg, s', n) == ClientSum(cfg, s, n) +
            if c < n then ClientWeight(cfg, s'.cl[c], RecOf(cfg, s', c)) -
              ClientWeight(cfg, s.cl[c], RecOf(cfg, s, c)) else 0
  {
    hide ClientWeight, RecOf;
    if n > 0 {
      ClientSumChanges(cfg, s, s', c, n - 1);
      if n - 1 != c { assert Alike(cfg, s, s', n - 1); }
    }
  }

  lemma {:induction false} ForwarderSumChanges(fw: seq<Forwarder>, f: nat, fw': Forwarder)
    requires f < |fw|
    ensures ForwarderSum(fw[f := fw']) == ForwarderSum(fw) + ForwarderWeight(fw') - ForwarderWeight(fw[f])
  {
    hide ForwarderWeight;
    var n := |fw| - 1;
    if f == n {
      assert fw[f := fw'][..n] == fw[..n];
    } else {
      ForwarderSumChanges(fw[..n], f, fw');
      assert fw[f := fw'][..n] == fw[..n][f := fw'];
    }
  }

  lemma {:induction false} ClientSumIsNat(cfg: Setup, s: State, n: nat)
    requires Inv(cfg, s) && n <= |s.cl|
    ensures 0 <= ClientSum(cfg, s, n)
  {
    hide Inv, ClientWeight, Ok;
    if n > 0 {
      ClientSumIsNat(cfg, s, n - 1);
      IsOne(cfg, s, n - 1);
      OkOf(cfg, s, n - 1);
      WeightIsNat(cfg, n - 1, s.cl[n - 1], RecOf(cfg, s, n - 1));
    }
  }

  lemma WeightIsNat(cfg: Setup, c: nat, cl: Client, rec: Record)
    requires Ok(cfg, c, cl, rec)
    ensures 0 <= ClientWeight(cfg, cl, rec)
  {
    hide Iterations;
  }

  lemma {:induction false} ForwarderSumIsNat(fw: seq<Forwarder>)
    requires forall f :: 0 <= f < |fw| ==> Tables(fw[f])
    ensures 0 <= ForwarderSum(fw)
  {
    hide Tables, ForwarderWeight;
    if fw != [] {
      ForwarderSumIsNat(fw[..|fw| - 1]);
      ForwarderIsNat(fw[|fw| - 1]);
    }
  }

  lemma ForwarderIsNat(fw: Forwarder)
    requires Tables(fw)
    ensures 0 <= ForwarderWeight(fw)
  {
  }

  lemma WeightIsPositive(cfg: Setup, s: State)
    requires Inv(cfg, s)
    ensures 0 <= Weight(cfg, s)
  {
    hide Tables, Ok, ClientSum, ForwarderSum;
    ClientSumIsNat(cfg, s, |s.cl|);
    ForwarderSumIsNat(s.fw);
  }

  // ---------- every step is lighter ----------

  lemma GoIsLighter(cfg: Setup, c: nat, cl: Client, rec: Record)
    requires Ok(cfg, c, cl, rec) && cl.pc == Ready && cl.phase != Done
    ensures ClientWeight(cfg, Protocol.Go(cfg, c, cl), rec) < ClientWeight(cfg, cl, rec)
  {
    hide Iterations, Offset;
  }

  lemma RecvIsLighter(cfg: Setup, c: nat, cl: Client, rec: Record)
    requires Ok(cfg, c, cl, rec) && CanRecv(cl)
    ensures ClientWeight(cfg, Protocol.Recv(cfg, c, cl), rec) < ClientWeight(cfg, cl, rec)
  {
    hide Iterations, Offset, Match;
    RecvKeeps(cfg, c, cl, rec);
  }

  lemma CrossIsLighter(cfg: Setup, c: nat, cl: Client, rec: Record)
    requires Ok(cfg, c, cl, rec) && cl.pc == AtBarrier
    ensures ClientWeight(cfg, Protocol.Cross(cfg, cl), rec) < ClientWeight(cfg, cl, rec)
  {
    hide Iterations, Offset;
  }

  lemma ListenIsLighter(cfg: Setup, c: nat, cl: Client, rec: Record, addr: nat, rec': Record)
    requires Ok(cfg, c, cl, rec) && Arrived(cl.toServer, TAG_REQUEST) && !cl.cur.Got?
    requires Content(cl.toServer, TAG_REQUEST).Ask? ==> rec'.stage == Incoming
    ensures ClientWeight(cfg, Listened(cl, addr), rec') < ClientWeight(cfg, cl, rec)
  {
    hide Iterations, Offset, Match;
    FirstMatches(cl.toServer, TAG_REQUEST);
  }

  /**
   The weight of a client with a request is that of its request's stage, and something that the forwarder does
   not change.
   */
  lemma StageIsWeight(cfg: Setup, c: nat, cl: Client, rec: Record, cl': Client, rec': Record)
    requires Ok(cfg, c, cl, rec) && cl.cur.Got?
    requires cl'.cur == cl.cur && cl'.phase == cl.phase && cl'.pc == cl.pc && cl'.i == cl.i
    ensures ClientWeight(cfg, cl', rec') - ClientWeight(cfg, cl, rec) ==
            StageWeight(rec'.stage) - StageWeight(rec.stage)
  {
    hide Iterations, Offset, StageWeight;
  }

  lemma SizedOf(cfg: Setup, s: State)
    requires Inv(cfg, s)
    ensures Sized(cfg, s)
  {
    hide Tables, Ok;
  }

  /** A step on one record: its stage gets lighter by more than the forwarder's queues get heavier. */
  lemma RecordStepIsLighter(cfg: Setup, s: State, s': State, f: nat, a: nat)
    requires Inv(cfg, s) && Sized(cfg, s') && OneRecord(cfg, s, s', f, a) && s'.fault == s.fault
    requires s'.cl[s.fw[f].records[a].req.rank].i == s.cl[s.fw[f].records[a].req.rank].i
    requires StageWeight(s'.fw[f].records[a].stage) + ForwarderWeight(s'.fw[f]) <
             StageWeight(s.fw[f].records[a].stage) + ForwarderWeight(s.fw[f])
    ensures Weight(cfg, s') < Weight(cfg, s)
  {
    hide Inv, StageWeight, ForwarderWeight, ClientWeight, ClientSum, ForwarderSum, Ok, RecOf, ForwarderOf,
      ShutdownThreshold, Iterations, Offset;
    SizedOf(cfg, s);
    var c := s.fw[f].records[a].req.rank;
    OneRecordOnlyClient(cfg, s, s', f, a);
    OwnerOf(cfg, s, f, a);
    forall d | 0 <= d < |s.cl| && d != c ensures Alike(cfg, s, s', d) { assert Same(cfg, s, s', d); }
    ClientSumChanges(cfg, s, s', c, |s.cl|);
    ForwarderSumChanges(s.fw, f, s'.fw[f]);
    StageIsWeight(cfg, c, s.cl[c], s.fw[f].records[a], s'.cl[c], s'.fw[f].records[a]);
  }

  /** A step of one client alone. */
  lemma ClientStepIsLighter(cfg: Setup, s: State, s': State, c: nat)
    requires Inv(cfg, s) && Sized(cfg, s') && IsClient(cfg, s, c) && s'.fw == s.fw && s'.fault == s.fault
    requires s'.cl == s.cl[c := s'.cl[c]]
    requires ClientWeight(cfg, s'.cl[c], RecOf(cfg, s', c)) < ClientWeight(cfg, s.cl[c], RecOf(cfg, s, c))
    ensures Weight(cfg, s') < Weight(cfg, s)
  {
    hide Inv, ClientWeight, ClientSum, ForwarderSum, ForwarderOf, ShutdownThreshold, Iterations;
    SizedOf(cfg, s);
    forall d | 0 <= d < |s.cl| && d != c ensures Alike(cfg, s, s', d) {}
    ClientSumChanges(cfg, s, s', c, |s.cl|);
  }

  /** Without a record, the weight does not depend on one. */
  lemma WeightWithout(cfg: Setup, cl: Client, rec: Record, rec': Record)
    requires !cl.cur.Got?
    ensures ClientWeight(cfg, cl, rec) == ClientWeight(cfg, cl, rec')
  {
  }

  lemma GoStepIsLighter(cfg: Setup, s: State, c: nat)
    requires Inv(cfg, s) && Enabled(cfg, s, Label.Go(c))
    ensures Sized(cfg, Do(cfg, s, Label.Go(c))) && Weight(cfg, Do(cfg, s, Label.Go(c))) < Weight(cfg, s)
  {
    hide Inv, Ok, Weight, ClientWeight, ForwarderOf, ShutdownThreshold;
    GoStep(cfg, s, c);
    SizedOf(cfg, Do(cfg, s, Label.Go(c)));
    SizedOf(cfg, s);
    OkOf(cfg, s, c);
    var cl := Protocol.Go(cfg, c, s.cl[c]);
    GoKeeps(cfg, c, s.cl[c], RecOf(cfg, s, c));
    GoIsLighter(cfg, c, s.cl[c], RecOf(cfg, s, c));
    WeightWithout(cfg, cl, RecOf(cfg, s, c), RecOf(cfg, Do(cfg, s, Label.Go(c)), c));
    ClientStepIsLighter(cfg, s, Do(cfg, s, Label.Go(c)), c);
  }

  lemma CrossStepIsLighter(cfg: Setup, s: State, c: nat)
    requires Inv(cfg, s) && Enabled(cfg, s, Label.Cross(c))
    ensures Sized(cfg, Do(cfg, s, Label.Cross(c))) && Weight(cfg, Do(cfg, s, Label.Cross(c))) < Weight(cfg, s)
  {
    hide Inv, Ok, Weight, ClientWeight, AllArrived, ForwarderOf, ShutdownThreshold;
    CrossStep(cfg, s, c);
    SizedOf(cfg, Do(cfg, s, Label.Cross(c)));
    SizedOf(cfg, s);
    OkOf(cfg, s, c);
    var cl := Protocol.Cross(cfg, s.cl[c]);
    CrossKeeps(cfg, c, s.cl[c], RecOf(cfg, s, c));
    CrossIsLighter(cfg, c, s.cl[c], RecOf(cfg, s, c));
    WeightWithout(cfg, cl, RecOf(cfg, s, c), RecOf(cfg, Do(cfg, s, Label.Cross(c)), c));
    ClientStepIsLighter(cfg, s, Do(cfg, s, Label.Cross(c)), c);
  }

  lemma RecvStepIsLighter(cfg: Setup, s: State, c: nat)
    requires Inv(cfg, s) && Enabled(cfg, s, Label.Recv(c)) && DataAccepted(cfg, c, s.cl[c])
    ensures Sized(cfg, Do(cfg, s, Label.Recv(c))) && Weight(cfg, Do(cfg, s, Label.Recv(c))) < Weight(cfg, s)
  {
    hide Inv, Ok, Weight, ClientWeight, Match, DataAccepted, ForwarderOf, ShutdownThreshold;
    RecvStep(cfg, s, c);
    SizedOf(cfg, Do(cfg, s, Label.Recv(c)));
    SizedOf(cfg, s);
    OkOf(cfg, s, c);
    var cl := Protocol.Recv(cfg, c, s.cl[c]);
    RecvKeeps(cfg, c, s.cl[c], RecOf(cfg, s, c));
    RecvIsLighter(cfg, c, s.cl[c], RecOf(cfg, s, c));
    if !cl.cur.Got? { WeightWithout(cfg, cl, RecOf(cfg, s, c), RecOf(cfg, Do(cfg, s, Label.Recv(c)), c)); }
    ClientStepIsLighter(cfg, s, Do(cfg, s, Label.Recv(c)), c);
  }

  lemma ListenStepIsLighter(cfg: Setup, s: State, c: nat)
    requires Inv(cfg, s) && Enabled(cfg, s, Listen(c))
    ensures Sized(cfg, Do(cfg, s, Listen(c))) && Weight(cfg, Do(cfg, s, Listen(c))) < Weight(cfg, s)
  {
    hide Inv, Ok, Tables, ClientWeight, ClientSum, ForwarderSum, Match, Window, SameOpen, SameWrites, SignedOff,
      ForwarderOf, ShutdownThreshold, Iterations;
    ListenStep(cfg, s, c);
    var f, s' := cfg.Home(c), Do(cfg, s, Listen(c));
    SizedOf(cfg, s');
    SizedOf(cfg, s);
    OkOf(cfg, s, c);
    var rec := RecOf(cfg, s, c);
    ListenKeeps(cfg, c, s.cl[c], rec, |s.fw[f].records|, 1000000);
    ListenIsLighter(cfg, c, s.cl[c], rec, |s.fw[f].records|, RecOf(cfg, s', c));
    forall d | 0 <= d < |s.cl| && d != c ensures Alike(cfg, s, s', d) {
      IsOne(cfg, s, d);
      OkFor(cfg, s, d);
      OthersUnheard(cfg, s, s', d);
    }
    ClientSumChanges(cfg, s, s', c, |s.cl|);
    ForwarderSumChanges(s.fw, f, s'.fw[f]);
  }

  lemma OkFor(cfg: Setup, s: State, c: nat)
    requires Inv(cfg, s) && IsClient(cfg, s, c)
    ensures ClientOk(cfg, s, c)
  {
    hide Ok, Tables;
  }

  lemma DispatcherIsLighter(cfg: Setup, s: State, l: Label)
    requires Inv(cfg, s) && Enabled(cfg, s, l) && (l.Pop? || l.Lookup? || l.Gather?) && Do(cfg, s, l).fault == NoFault
    ensures Sized(cfg, Do(cfg, s, l)) && Weight(cfg, Do(cfg, s, l)) < Weight(cfg, s)
  {
    hide Inv, Tables, Ok, ClientWeight, ClientSum, ForwarderSum, Gathered, ForwarderOf, ShutdownThreshold;
    DispatcherStep(cfg, s, l);
    var f, s' := l.f, Do(cfg, s, l);
    SizedOf(cfg, s');
    SizedOf(cfg, s);
    forall d | 0 <= d < |s.cl| ensures Alike(cfg, s, s', d) { IsOne(cfg, s, d); }
    ClientSumChanges(cfg, s, s', |s.cl|, |s.cl|);
    ForwarderSumChanges(s.fw, f, s'.fw[f]);
  }

  /** The steps of a forwarder on one request. */
  predicate OnRecord(l: Label) {
    || l.Take? || l.Serve? || l.SendHandle? || l.AckClose? || l.Start? || l.GetBuffer? || l.Register? || l.Schedule?
    || l.Release? || l.Perform? || l.Complete?
  }

  /** The request that such a step is about. */
  function RecordIn(s: State, l: Label): nat
    requires OnRecord(l) && l.f < |s.fw|
    requires l.Perform? ==> CanPerform(s.fw[l.f], l.j)
    requires l.Complete? ==> CanReply(s.fw[l.f], l.j)
  {
    match l
    case Take(f, _) => s.fw[f].taken
    case Release(f, id) => if id in s.fw[f].requests then s.fw[f].requests[id] else 0
    case Perform(f, j) => Performing(s.fw[f], j).addr
    case Complete(f, j) => if Known(s.fw[f], Replying(s.fw[f], j)) then s.fw[f].requests[Replying(s.fw[f], j)] else 0
    case _ => l.a
  }

  /** The stage of a request when such a step moves it. */
  predicate Fits(l: Label, stage: Stage)
    requires OnRecord(l)
  {
    match l
    case Take(_, _) => stage == Incoming
    case Serve(_, _, _) => stage == Held
    case SendHandle(_, _) => stage.Opened?
    case AckClose(_, _, _) => stage == Closed
    case Start(_, _) => stage == Begun
    case GetBuffer(_, _) => stage == AwaitBuffer
    case Register(_, _) => stage == IdSent || stage == Received
    case Schedule(_, _) => stage == Registered
    case Release(_, _) => stage == Scheduled
    case Perform(_, _) => stage.Released?
    case _ => stage.Performed?
  }

  /** The step has found its request. */
  predicate Finds(s: State, l: Label, a: nat)
    requires OnRecord(l)
  {
    && l.f < |s.fw| && a < |s.fw[l.f].records| && Fits(l, s.fw[l.f].records[a].stage)
    && (l.Release? ==> Known(s.fw[l.f], l.id) && a == s.fw[l.f].requests[l.id])
    && (l.Complete? ==>
          && CanReply(s.fw[l.f], l.j) && Known(s.fw[l.f], Replying(s.fw[l.f], l.j))
          && a == s.fw[l.f].requests[Replying(s.fw[l.f], l.j)])
  }

  lemma FindRecord(cfg: Setup, s: State, l: Label)
    requires OnRecord(l) && Enabled(cfg, s, l) && Tables(s.fw[l.f])
    ensures Finds(s, l, RecordIn(s, l))
  {
    hide Tables, Finds, RecordIn, Enabled;
    if l.Release? || l.Perform? || l.Complete? { FindQueued(cfg, s, l); } else { FindNamed(cfg, s, l); }
  }

  /** The steps whose label names the request, and the taking of the next one. */
  lemma FindNamed(cfg: Setup, s: State, l: Label)
    requires OnRecord(l) && !l.Release? && !l.Perform? && !l.Complete? && Enabled(cfg, s, l) && Tables(s.fw[l.f])
    ensures Finds(s, l, RecordIn(s, l))
  {
    hide Window, Identified, Registry, Scheduling, ReadyQueue, Batched, AllTracked, Staffed, AllArrived, Match, Known;
  }

  /** The steps that find the request through the ready queue or a batch. */
  lemma FindQueued(cfg: Setup, s: State, l: Label)
    requires (l.Release? || l.Perform? || l.Complete?) && Enabled(cfg, s, l) && Tables(s.fw[l.f])
    ensures Finds(s, l, RecordIn(s, l))
  {
    hide Window, Identified, ReadyQueue, Batched, AllTracked, Staffed, AllArrived, Match;
    match l
    case Release(f, id) => assert At(s.fw[f], id, Scheduled);
    case Perform(f, j) => PerformFindsIn(s.fw[f], j);
    case Complete(f, j) => ReplyFindsIn(s.fw[f], j);
  }

  ghost predicate Moves(cfg: Setup, s: State, s': State, f: nat, a: nat) {
    && OneRecord(cfg, s, s', f, a) && s'.fault == s.fault
    && s'.cl[s.fw[f].records[a].req.rank].i == s.cl[s.fw[f].records[a].req.rank].i
    && StageWeight(s'.fw[f].records[a].stage) + ForwarderWeight(s'.fw[f]) <
       StageWeight(s.fw[f].records[a].stage) + ForwarderWeight(s.fw[f])
  }

  lemma ServeMoves(cfg: Setup, s: State, l: Label)
    requires l.Serve? && Enabled(cfg, s, l) && Do(cfg, s, l).fault == NoFault
    requires Finds(s, l, RecordIn(s, l)) && s.fw[l.f].records[RecordIn(s, l)].req.rank < |s.cl|
    ensures Moves(cfg, s, Do(cfg, s, l), l.f, RecordIn(s, l))
  {
    hide Match, Window, AllArrived, CanRecv, OneRecord;
    match s.fw[l.f].records[l.a].req.msg.op
    case OPEN => OpenMoves(cfg, s, l.f, l.a, l.fd);
    case CLOSE => CloseMoves(cfg, s, l.f, l.a, l.fd);
    case _ => PoolMoves(cfg, s, l.f, l.a, l.fd);
  }

  lemma OpenMoves(cfg: Setup, s: State, f: nat, a: nat, fd: int)
    requires HasRecord(s, f, a) && s.fw[f].records[a].stage == Held && s.fw[f].records[a].req.msg.op == OPEN
    ensures Moves(cfg, s, DoServe(s, f, a, fd), f, a)
  {
  }

  lemma CloseMoves(cfg: Setup, s: State, f: nat, a: nat, fd: int)
    requires HasRecord(s, f, a) && s.fw[f].records[a].stage == Held && s.fw[f].records[a].req.msg.op == CLOSE
    requires s.fw[f].records[a].req.msg.file in s.fw[f].handles
    ensures Moves(cfg, s, DoServe(s, f, a, fd), f, a)
  {
  }

  lemma PoolMoves(cfg: Setup, s: State, f: nat, a: nat, fd: int)
    requires HasRecord(s, f, a) && s.fw[f].records[a].stage == Held
    requires s.fw[f].records[a].req.msg.op != OPEN && s.fw[f].records[a].req.msg.op != CLOSE
    ensures Moves(cfg, s, DoServe(s, f, a, fd), f, a)
  {
  }

  lemma ConcludeMoves(cfg: Setup, s: State, f: nat, a: nat, p: Packet)
    requires HasRecord(s, f, a) && (s.fw[f].records[a].stage.Opened? || s.fw[f].records[a].stage.Closed?)
    ensures Moves(cfg, s, SendTo(s, f, a, p, Conclude(s.fw[f], a)), f, a)
  {
  }

  lemma StartMoves(cfg: Setup, s: State, f: nat, a: nat, p: Packet)
    requires HasRecord(s, f, a) && s.fw[f].records[a].stage == Begun
    ensures Moves(cfg, s, SendTo(s, f, a, p, SetRecord(s.fw[f], a, Started(s.fw[f].records[a]))), f, a)
  {
  }

  lemma GetBufferMoves(cfg: Setup, s: State, f: nat, a: nat)
    requires HasRecord(s, f, a) && s.fw[f].records[a].stage == AwaitBuffer
    requires Arrived(s.cl[s.fw[f].records[a].req.rank].toServer, s.fw[f].records[a].req.id)
    requires DoGetBuffer(s, f, a).fault == s.fault == NoFault
    ensures Moves(cfg, s, DoGetBuffer(s, f, a), f, a)
  {
    hide Match;
  }

  lemma TakeMoves(cfg: Setup, s: State, f: nat, h: nat)
    requires f < |s.fw| && s.fw[f].taken < |s.fw[f].records| && h < |s.fw[f].handlers|
    requires HasRecord(s, f, s.fw[f].taken) && s.fw[f].records[s.fw[f].taken].stage == Incoming
    ensures Moves(cfg, s, SetForwarder(s, f, Forwarding.Take(s.fw[f], h)), f, s.fw[f].taken)
  {
  }

  lemma RegisterMoves(cfg: Setup, s: State, f: nat, a: nat)
    requires HasRecord(s, f, a) && (s.fw[f].records[a].stage == IdSent || s.fw[f].records[a].stage == Received)
    ensures Moves(cfg, s, SetForwarder(s, f, Forwarding.Register(s.fw[f], a)), f, a)
  {
  }

  lemma ScheduleMoves(cfg: Setup, s: State, f: nat, a: nat)
    requires HasRecord(s, f, a) && s.fw[f].records[a].stage == Registered
    ensures Moves(cfg, s, SetForwarder(s, f, Forwarding.Schedule(s.fw[f], a)), f, a)
  {
  }

  lemma ReleasedMoves(cfg: Setup, s: State, f: nat, id: nat)
    requires f < |s.fw| && Known(s.fw[f], id) && HasRecord(s, f, s.fw[f].requests[id])
    requires s.fw[f].records[s.fw[f].requests[id]].stage == Scheduled
    ensures Moves(cfg, s, SetForwarder(s, f, Forwarding.Release(s.fw[f], id)), f, s.fw[f].requests[id])
  {
  }

  /** Performing a request outweighs the callback job that the last one queues. */
  lemma PerformedMoves(cfg: Setup, s: State, s': State, f: nat, j: nat, data: seq<char>)
    requires f < |s.fw| && CanPerform(s.fw[f], j)
             && s' == SetForwarder(s, f, Forwarding.Perform(s.fw[f], j, data)).(files := s'.files)
    requires HasRecord(s, f, Performing(s.fw[f], j).addr)
             && s.fw[f].records[Performing(s.fw[f], j).addr].stage.Released?
    ensures Moves(cfg, s, s', f, Performing(s.fw[f], j).addr)
  {
  }

  lemma PerformMoves(cfg: Setup, s: State, f: nat, j: nat)
    requires f < |s.fw| && CanPerform(s.fw[f], j) && Performing(s.fw[f], j).req.msg.handle in s.fw[f].descriptors
    requires HasRecord(s, f, Performing(s.fw[f], j).addr)
             && s.fw[f].records[Performing(s.fw[f], j).addr].stage.Released?
    ensures Moves(cfg, s, DoPerform(s, f, j), f, Performing(s.fw[f], j).addr)
  {
    hide Moves, Forwarding.Perform, ReadAt, WriteAt;
    var item := Performing(s.fw[f], j);
    var msg := item.req.msg;
    var data :=
      if BatchOp(s.fw[f].batches[j]) == READ then
        ReadAt(s.files, s.fw[f].descriptors[msg.handle], msg.offset, msg.size)
      else s.fw[f].records[item.addr].buffer;
    PerformedMoves(cfg, s, DoPerform(s, f, j), f, j, data);
  }

  lemma CompleteMoves(cfg: Setup, s: State, f: nat, j: nat)
    requires f < |s.fw| && CanReply(s.fw[f], j) && Known(s.fw[f], Replying(s.fw[f], j))
    requires HasRecord(s, f, s.fw[f].requests[Replying(s.fw[f], j)])
    requires s.fw[f].records[s.fw[f].requests[Replying(s.fw[f], j)]].stage.Performed?
    ensures Moves(cfg, s, DoComplete(s, f, j), f, s.fw[f].requests[Replying(s.fw[f], j)])
  {
  }

  lemma SomethingMoves(cfg: Setup, s: State, l: Label)
    requires OnRecord(l) && Enabled(cfg, s, l) && Do(cfg, s, l).fault == NoFault
    requires Finds(s, l, RecordIn(s, l)) && s.fw[l.f].records[RecordIn(s, l)].req.rank < |s.cl|
    ensures Moves(cfg, s, Do(cfg, s, l), l.f, RecordIn(s, l))
  {
    hide Moves, Finds, RecordIn, Enabled, Do;
    if l.Release? || l.Perform? || l.Complete? || l.Register? || l.Schedule? {
      TableMoves(cfg, s, l);
    } else {
      ThreadMoves(cfg, s, l);
    }
  }

  lemma ThreadMoves(cfg: Setup, s: State, l: Label)
    requires l.Take? || l.Serve? || l.SendHandle? || l.AckClose? || l.Start? || l.GetBuffer?
    requires Enabled(cfg, s, l) && Do(cfg, s, l).fault == NoFault
    requires Finds(s, l, RecordIn(s, l)) && s.fw[l.f].records[RecordIn(s, l)].req.rank < |s.cl|
    ensures Moves(cfg, s, Do(cfg, s, l), l.f, RecordIn(s, l))
  {
    hide Moves, Match, Window, AllArrived, CanRecv;
    match l
    case Take(f, h) => TakeMoves(cfg, s, f, h);
    case Serve(_, _, _) => ServeMoves(cfg, s, l);
    case SendHandle(f, a) => ConcludeMoves(cfg, s, f, a, Packet(TAG_HANDLE, Num(s.fw[f].records[a].stage.fh)));
    case AckClose(f, a, ack) => ConcludeMoves(cfg, s, f, a, Packet(TAG_ACK, Num(ack)));
    case Start(f, a) => StartMoves(cfg, s, f, a, IdPacket(s.fw[f].records[a]));
    case GetBuffer(f, a) => GetBufferMoves(cfg, s, f, a);
  }

  lemma TableMoves(cfg: Setup, s: State, l: Label)
    requires l.Register? || l.Schedule? || l.Release? || l.Perform? || l.Complete?
    requires Enabled(cfg, s, l) && Do(cfg, s, l).fault == NoFault
    requires Finds(s, l, RecordIn(s, l)) && s.fw[l.f].records[RecordIn(s, l)].req.rank < |s.cl|
    ensures Moves(cfg, s, Do(cfg, s, l), l.f, RecordIn(s, l))
  {
    hide Moves, Match, Window, AllArrived, Forwarding.Perform, Forwarding.Complete, Transfer;
    match l
    case Register(f, a) => RegisterMoves(cfg, s, f, a);
    case Schedule(f, a) => ScheduleMoves(cfg, s, f, a);
    case Release(f, id) => ReleasedMoves(cfg, s, f, id);
    case Perform(f, j) => PerformMoves(cfg, s, f, j);
    case Complete(f, j) => CompleteMoves(cfg, s, f, j);
  }

  lemma RecordLabelIsLighter(cfg: Setup, s: State, l: Label)
    requires Inv(cfg, s) && Enabled(cfg, s, l) && OnRecord(l) && Do(cfg, s, l).fault == NoFault
    ensures Sized(cfg, Do(cfg, s, l)) && Weight(cfg, Do(cfg, s, l)) < Weight(cfg, s)
  {
    hide Inv, Tables, Ok, Weight, Do, StageWeight, ForwarderWeight, OneRecord, Match, ForwarderOf, ShutdownThreshold;
    StepKeepsInv(cfg, s, l);
    SizedOf(cfg, Do(cfg, s, l));
    TablesOf(cfg, s, l.f);
    FindRecord(cfg, s, l);
    OwnerOf(cfg, s, l.f, RecordIn(s, l));
    SomethingMoves(cfg, s, l);
    RecordStepIsLighter(cfg, s, Do(cfg, s, l), l.f, RecordIn(s, l));
  }

  lemma PullIsLighter(cfg: Setup, s: State, f: nat, w: nat)
    requires Inv(cfg, s) && Enabled(cfg, s, Label.Pull(f, w))
    ensures Sized(cfg, Do(cfg, s, Label.Pull(f, w))) && Weight(cfg, Do(cfg, s, Label.Pull(f, w))) < Weight(cfg, s)
  {
    hide Inv, Tables, Ok, ClientWeight, ClientSum, ForwarderSum, ForwarderOf, ShutdownThreshold;
    PullStep(cfg, s, f, w);
    var fw, s' := s.fw[f], Do(cfg, s, Label.Pull(f, w));
    SizedOf(cfg, s');
    SizedOf(cfg, s);
    TablesOf(cfg, s, f);
    PullOk(fw, w);
    if fw.jobs[fw.pulled].HandleJob? {
      OwnerOf(cfg, s, f, fw.jobs[fw.pulled].addr);
      RecordStepIsLighter(cfg, s, s', f, fw.jobs[fw.pulled].addr);
    } else {
      forall d | 0 <= d < |s.cl| ensures Alike(cfg, s, s', d) { IsOne(cfg, s, d); }
      ClientSumChanges(cfg, s, s', |s.cl|, |s.cl|);
      ForwarderSumChanges(s.fw, f, s'.fw[f]);
    }
  }

  // ---------- every run ends ----------

  lemma CrashIsLighter(cfg: Setup, s: State, s': State)
    requires Sized(cfg, s) && s.fault == NoFault && s' == Crash(s, s'.fault) && s'.fault != NoFault
    ensures Sized(cfg, s') && Weight(cfg, s') < Weight(cfg, s)
  {
    hide ClientWeight, ForwarderWeight, ForwarderOf, ShutdownThreshold;
    forall d | 0 <= d < |s.cl| ensures IsClient(cfg, s', d) && Alike(cfg, s, s', d) { assert IsClient(cfg, s, d); }
    ClientSumChanges(cfg, s, s', |s.cl|, |s.cl|);
  }

  lemma FaultsAreCrashes(cfg: Setup, s: State, l: Label)
    requires Enabled(cfg, s, l) && Do(cfg, s, l).fault != NoFault
    ensures Do(cfg, s, l) == Crash(s, Do(cfg, s, l).fault)
  {
    hide Match, Window, AllArrived, CanRecv, ReadAt, WriteAt, Gathered;
  }

  lemma StepIsLighter(cfg: Setup, s: State, l: Label)
    requires Inv(cfg, s) && Enabled(cfg, s, l)
    ensures Sized(cfg, Do(cfg, s, l)) && Weight(cfg, Do(cfg, s, l)) < Weight(cfg, s)
  {
    hide Inv, Do, Weight, Match, Window, DataAccepted;
    SizedOf(cfg, s);
    if Do(cfg, s, l).fault != NoFault {
      FaultsAreCrashes(cfg, s, l);
      CrashIsLighter(cfg, s, Do(cfg, s, l));
    } else {
      match l
      case Go(c) => GoStepIsLighter(cfg, s, c);
      case Recv(c) => RecvAccepts(cfg, s, c); RecvStepIsLighter(cfg, s, c);
      case Cross(c) => CrossStepIsLighter(cfg, s, c);
      case Listen(c) => ListenStepIsLighter(cfg, s, c);
      case Pop(_) => DispatcherIsLighter(cfg, s, l);
      case Lookup(_) => DispatcherIsLighter(cfg, s, l);
      case Gather(_) => DispatcherIsLighter(cfg, s, l);
      case Pull(f, w) => PullIsLighter(cfg, s, f, w);
      case _ => RecordLabelIsLighter(cfg, s, l);
    }
  }

  lemma RecvAccepts(cfg: Setup, s: State, c: nat)
    requires Enabled(cfg, s, Label.Recv(c)) && Do(cfg, s, Label.Recv(c)).fault == NoFault
    ensures DataAccepted(cfg, c, s.cl[c])
  {
    hide Match;
  }

  /** How many steps a run can have. */
  function Bound(cfg: Setup): nat {
    cfg.Clients() * (7 * PhaseBudget(cfg) + 60) + 1
  }

  lemma {:induction false} InitialClients(cfg: Setup, s: State, n: nat)
    requires Sized(cfg, s) && Init(cfg, s) && n <= |s.cl|
    ensures ClientSum(cfg, s, n) <= n * (7 * PhaseBudget(cfg) + 60)
  {
    hide Iterations, ForwarderOf, ShutdownThreshold;
    if n > 0 {
      InitialClients(cfg, s, n - 1);
      assert s.cl[n - 1] == NewClient(cfg);
      NewClientWeight(cfg, RecOf(cfg, s, n - 1));
      Distribute(n, 7 * PhaseBudget(cfg) + 60);
    }
  }

  lemma Distribute(n: nat, w: nat)
    requires n > 0
    ensures n * w == (n - 1) * w + w
  {
  }

  lemma NewClientWeight(cfg: Setup, rec: Record)
    ensures ClientWeight(cfg, NewClient(cfg), rec) <= 7 * PhaseBudget(cfg) + 60
  {
    hide Iterations;
  }

  lemma {:induction false} InitialForwarders(cfg: Setup, fw: seq<Forwarder>)
    requires forall f :: 0 <= f < |fw| ==> fw[f] == NewForwarder(cfg.handlers, cfg.workers)
    ensures ForwarderSum(fw) == 0
  {
    if fw != [] { InitialForwarders(cfg, fw[..|fw| - 1]); }
  }

  lemma InitialWeight(cfg: Setup, s: State)
    requires Init(cfg, s)
    ensures Sized(cfg, s) && Weight(cfg, s) <= Bound(cfg)
  {
    hide ClientSum, ForwarderSum, PhaseBudget, Iterations, ForwarderOf, ShutdownThreshold;
    InitInv(cfg, s);
    SizedOf(cfg, s);
    InitialClients(cfg, s, |s.cl|);
    InitialForwarders(cfg, s.fw);
  }

  lemma {:induction false} RunGetsLighter(cfg: Setup, run: seq<State>, i: nat)
    requires IsRun(cfg, run) && i < |run|
    ensures Sized(cfg, run[i]) && Weight(cfg, run[i]) + i <= Bound(cfg)
  {
    hide Init, Enabled, Do, Weight, Inv, Bound;
    RunKeepsInv(cfg, run, i);
    SizedOf(cfg, run[i]);
    if i == 0 {
      InitialWeight(cfg, run[0]);
    } else {
      RunGetsLighter(cfg, run, i - 1);
      RunKeepsInv(cfg, run, i - 1);
      assert Pipeline.Follows(cfg, run[i - 1], run[i - 1 + 1]);
      var l :| Enabled(cfg, run[i - 1], l) && run[i] == Do(cfg, run[i - 1], l);
      StepIsLighter(cfg, run[i - 1], l);
    }
  }

  /** No run is longer than the set-up allows, whatever the interleaving. */
  lemma EveryRunEnds(cfg: Setup, run: seq<State>)
    requires IsRun(cfg, run)
    ensures |run| <= Bound(cfg) + 1
  {
    hide Weight, Bound;
    RunGetsLighter(cfg, run, |run| - 1);
    RunKeepsInv(cfg, run, |run| - 1);
    WeightIsPositive(cfg, run[|run| - 1]);
  }

  /** No step is possible. */
  ghost predicate Halted(cfg: Setup, s: State) {
    forall l :: !Enabled(cfg, s, l)
  }

  /**
   A run that goes on until no step is possible has completed: all clients are done, all
   forwarders have stopped with nothing left in them, and no fault has occurred.
   */
  lemma EveryFullRunCompletes(cfg: Setup, run: seq<State>)
    requires IsRun(cfg, run) && cfg.Manned() && (cfg.write || !cfg.validate || !Differs(cfg))
    requires var s := run[|run| - 1];
             && Halted(cfg, s)
             && (forall f :: 0 <= f < |s.fw| ==> HasRoom(s.fw[f]))
    ensures var s := run[|run| - 1]; AllComplete(s) && s.fault == NoFault && AllAnswered(s)
  {
    hide IsRun, Enabled;
    var i := |run| - 1;
    RunIsSome(cfg, run);
    NoFaultOccurs(cfg, run, i);
    FaultIsFor(cfg, run, i);
    NeverStuck(cfg, run, i);
    var s := run[i];
    forall f, a | 0 <= f < |s.fw| && 0 <= a < |s.fw[f].records| ensures s.fw[f].records[a].answers == 1 {
      ShutdownIsQuiescent(cfg, run, i, f);
      AnsweredOnce(cfg, run, i, f, a);
    }
  }

  ghost predicate AllAnswered(s: State) {
    forall f, a :: 0 <= f < |s.fw| && 0 <= a < |s.fw[f].records| ==> s.fw[f].records[a].answers == 1
  }

  lemma FaultIsFor(cfg: Setup, run: seq<State>, i: nat)
    requires IsRun(cfg, run) && i < |run|
    ensures FaultOk(cfg, run[i])
  {
    hide IsRun, Inv;
    RunKeepsInv(cfg, run, i);
    FaultIs(cfg, run[i]);
  }

  lemma RunIsSome(cfg: Setup, run: seq<State>)
    requires IsRun(cfg, run)
    ensures run != []
  {
  }
}
