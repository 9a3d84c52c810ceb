/**
 How many requests a run makes. Each forwarder receives a number of requests that the
 set-up fixes, which is how a run can be known beforehand not to exhaust the identifiers.
 */
module Budget {
  import opened Forge
  import opened Offsets
  import opened Protocol
  import opened Conversation
  import opened Forwarding
  import opened Pipeline
  import opened Invariant
  import opened Steps
  import opened Guarantees
  import opened Conservation
  import opened Termination

  // ---------- what a client has yet to ask ----------

  /** How many requests a client makes in a phase. */
  function InPhase(cfg: Setup, p: Phase): nat {
    if Looping(p) then cfg.Rounds() else if Order(p) <= 5 then 1 else 0
  }

  function InLaterPhases(cfg: Setup, p: Phase): nat
    decreases 7 - Order(p)
  {
    if p == Done then 0 else InPhase(cfg, Next(cfg, p)) + InLaterPhases(cfg, Next(cfg, p))
  }

  /** The client's requests that its forwarder has not received: in its present phase, and in later ones. */
  function AsksLeft(cfg: Setup, cl: Client): int {
    var current := if Looping(cl.phase) then cfg.Rounds() - cl.i else 1;
    InLaterPhases(cfg, cl.phase) +
    if cl.pc == AtBarrier || Order(cl.phase) > 5 then 0
    else if cl.pc == Ready || cl.cur == Sent then current
    else current - 1
  }

  /** An open, a close, and the rounds between them, for writing and for reading. */
  function RequestsPerClient(cfg: Setup): nat {
    (if cfg.write then cfg.Rounds() + 2 else 0) + (if cfg.read then cfg.Rounds() + 2 else 0)
  }

  function RequestsPerForwarder(cfg: Setup): nat {
    cfg.Threshold() * RequestsPerClient(cfg)
  }

  lemma NewClientAsks(cfg: Setup)
    ensures AsksLeft(cfg, NewClient(cfg)) == RequestsPerClient(cfg)
  {
    hide Iterations;
    assert InLaterPhases(cfg, SigningOff) == 0;
    assert InLaterPhases(cfg, Reading) == 1;
    if cfg.write { assert InLaterPhases(cfg, WriteClose) == if cfg.read then cfg.Rounds() + 2 else 0; }
  }

  lemma GoAsks(cfg: Setup, c: nat, cl: Client, rec: Record)
    requires Ok(cfg, c, cl, rec) && cl.pc == Ready && cl.phase != Done
    ensures AsksLeft(cfg, Protocol.Go(cfg, c, cl)) == AsksLeft(cfg, cl)
  {
    hide Iterations, Offset, InLaterPhases;
  }

  lemma RecvAsks(cfg: Setup, c: nat, cl: Client, rec: Record)
    requires Ok(cfg, c, cl, rec) && CanRecv(cl)
    ensures AsksLeft(cfg, Protocol.Recv(cfg, c, cl)) == AsksLeft(cfg, cl)
  {
    hide Iterations, Offset, InLaterPhases, Match;
    RecvKeeps(cfg, c, cl, rec);
  }

  lemma CrossAsks(cfg: Setup, c: nat, cl: Client, rec: Record)
    requires Ok(cfg, c, cl, rec) && cl.pc == AtBarrier
    ensures AsksLeft(cfg, Protocol.Cross(cfg, cl)) == AsksLeft(cfg, cl)
  {
    hide Iterations, Offset;
  }

  lemma ListenAsks(cfg: Setup, c: nat, cl: Client, rec: Record, addr: nat)
    requires Ok(cfg, c, cl, rec) && Arrived(cl.toServer, TAG_REQUEST)
    ensures AsksLeft(cfg, Listened(cl, addr)) ==
            AsksLeft(cfg, cl) - if Content(cl.toServer, TAG_REQUEST).Ask? then 1 else 0
  {
    hide Iterations, Offset, InLaterPhases, Match;
    ListenKeeps(cfg, c, cl, rec, addr, 1000000);
    FirstMatches(cl.toServer, TAG_REQUEST);
  }

  // ---------- steps that ask nothing ----------

  /** The client is at the same point of its program. */
  predicate SamePoint(cl: Client, cl': Client) {
    cl'.phase == cl.phase && cl'.i == cl.i && cl'.pc == cl.pc && cl'.cur == cl.cur
  }

  predicate SamePoints(s: State, s': State) {
    |s'.cl| == |s.cl| && forall c :: 0 <= c < |s.cl| ==> SamePoint(s.cl[c], s'.cl[c])
  }

  /** The forwarder has received the same requests. */
  predicate SameRequests(fw: Forwarder, fw': Forwarder) {
    && |fw'.records| == |fw.records|
    && forall a :: 0 <= a < |fw.records| ==> fw'.records[a].req == fw.records[a].req
  }

  predicate SameArrivals(s: State, s': State) {
    |s'.fw| == |s.fw| && forall f :: 0 <= f < |s.fw| ==> SameRequests(s.fw[f], s'.fw[f])
  }

  predicate OfForwarder(l: Label) {
    !l.Go? && !l.Recv? && !l.Cross? && !l.Listen?
  }

  predicate AsksNothing(s: State, s': State) {
    SamePoints(s, s') && SameArrivals(s, s')
  }

  lemma SendAsksNothing(s: State, f: nat, a: nat, p: Packet, fw: Forwarder)
    requires HasRecord(s, f, a) && SameRequests(s.fw[f], fw)
    ensures AsksNothing(s, SendTo(s, f, a, p, fw))
  {
  }

  lemma UpdateAsksNothing(s: State, s': State, f: nat, fw: Forwarder)
    requires f < |s.fw| && SameRequests(s.fw[f], fw) && s' == SetForwarder(s, f, fw).(files := s'.files)
    ensures AsksNothing(s, s')
  {
  }

  lemma CompletionAsksNothing(s: State, f: nat, j: nat)
    requires f < |s.fw| && CanReply(s.fw[f], j)
    ensures AsksNothing(s, DoComplete(s, f, j))
  {
    hide Reply;
  }

  lemma BufferAsksNothing(s: State, f: nat, a: nat)
    requires HasRecord(s, f, a) && Arrived(s.cl[s.fw[f].records[a].req.rank].toServer, s.fw[f].records[a].req.id)
    ensures AsksNothing(s, DoGetBuffer(s, f, a))
  {
    hide Match;
  }

  lemma TransferAsksNothing(s: State, f: nat, j: nat)
    requires f < |s.fw| && CanPerform(s.fw[f], j)
    ensures AsksNothing(s, DoPerform(s, f, j))
  {
    hide AsksNothing, ReadAt, WriteAt;
    if Performing(s.fw[f], j).req.msg.handle in s.fw[f].descriptors {
      UpdateAsksNothing(s, DoPerform(s, f, j), f, Transfer(s.fw[f], s.files, j).0);
    } else {
      CrashAsksNothing(s, BadDescriptor);
    }
  }

  lemma CrashAsksNothing(s: State, fault: Fault)
    ensures AsksNothing(s, Crash(s, fault))
  {
  }

  lemma ServiceAsksNothing(s: State, f: nat, a: nat, fd: int)
    requires HasRecord(s, f, a)
    ensures AsksNothing(s, DoServe(s, f, a, fd))
  {
  }

  /** The steps of a forwarder, but for its listener, neither move a client nor receive a request. */
  lemma ForwarderAsksNothing(cfg: Setup, s: State, l: Label)
    requires Enabled(cfg, s, l) && OfForwarder(l)
    ensures AsksNothing(s, Do(cfg, s, l))
  {
    hide Enabled, Do, AsksNothing;
    if l.Serve? || l.SendHandle? || l.AckClose? || l.Start? || l.GetBuffer? || l.Perform? || l.Complete? {
      ExchangeAsksNothing(cfg, s, l);
    } else if l.Take? || l.Pull? {
      TaskAsksNothing(cfg, s, l);
    } else {
      TableAsksNothing(cfg, s, l);
    }
  }

  lemma ExchangeAsksNothing(cfg: Setup, s: State, l: Label)
    requires l.Serve? || l.SendHandle? || l.AckClose? || l.Start? || l.GetBuffer? || l.Perform? || l.Complete?
    requires Enabled(cfg, s, l)
    ensures AsksNothing(s, Do(cfg, s, l))
  {
    hide AsksNothing, Match, Window, AllArrived, CanRecv, DoServe, DoGetBuffer, DoPerform, DoComplete, SendTo;
    match l
    case Serve(f, a, fd) => ServiceAsksNothing(s, f, a, fd);
    case SendHandle(f, a) =>
      SendAsksNothing(s, f, a, Packet(TAG_HANDLE, Num(s.fw[f].records[a].stage.fh)), Conclude(s.fw[f], a));
    case AckClose(f, a, ack) => SendAsksNothing(s, f, a, Packet(TAG_ACK, Num(ack)), Conclude(s.fw[f], a));
    case Start(f, a) => SendAsksNothing(s, f, a, IdPacket(s.fw[f].records[a]),
      SetRecord(s.fw[f], a, Started(s.fw[f].records[a])));
    case GetBuffer(f, a) => BufferAsksNothing(s, f, a);
    case Perform(f, j) => TransferAsksNothing(s, f, j);
    case Complete(f, j) => CompletionAsksNothing(s, f, j);
  }

  lemma TaskAsksNothing(cfg: Setup, s: State, l: Label)
    requires Enabled(cfg, s, l) && (l.Take? || l.Pull?)
    ensures AsksNothing(s, Do(cfg, s, l))
  {
    hide AsksNothing, Match, Window, AllArrived, CanRecv;
    UpdateAsksNothing(s, Do(cfg, s, l), l.f, Do(cfg, s, l).fw[l.f]);
  }

  lemma TableAsksNothing(cfg: Setup, s: State, l: Label)
    requires l.Register? || l.Schedule? || l.Release? || l.Pop? || l.Lookup? || l.Gather?
    requires Enabled(cfg, s, l)
    ensures AsksNothing(s, Do(cfg, s, l))
  {
    hide AsksNothing, Match, Window, AllArrived, CanRecv, Gathered;
    if Do(cfg, s, l).fault == NoFault {
      UpdateAsksNothing(s, Do(cfg, s, l), l.f, Do(cfg, s, l).fw[l.f]);
    } else {
      CrashAsksNothing(s, Do(cfg, s, l).fault);
    }
  }

  // ---------- what a forwarder will receive ----------

  /** What the first n clients have yet to ask of a forwarder. */
  function AsksOf(cfg: Setup, cl: seq<Client>, f: nat, n: nat): int
    requires n <= |cl| <= cfg.Clients()
  {
    if n == 0 then 0 else AsksOf(cfg, cl, f, n - 1) + if cfg.Home(n - 1) == f then AsksLeft(cfg, cl[n - 1]) else 0
  }

  lemma {:induction false} AsksOfChanges(cfg: Setup, cl: seq<Client>, cl': seq<Client>, f: nat, c: nat, n: nat)
    requires n <= |cl| == |cl'| <= cfg.Clients() && c < |cl|
    requires forall d :: 0 <= d < |cl| && d != c ==> AsksLeft(cfg, cl'[d]) == AsksLeft(cfg, cl[d])
    ensures AsksOf(cfg, cl', f, n) == AsksOf(cfg, cl, f, n) +
            if c < n && cfg.Home(c) == f then AsksLeft(cfg, cl'[c]) - AsksLeft(cfg, cl[c]) else 0
  {
    hide AsksLeft, Config.Home, Config.Clients;
    if n > 0 { AsksOfChanges(cfg, cl, cl', f, c, n - 1); }
  }

  /** The clients of a forwarder are its threshold's worth, counted from the first. */
  lemma {:induction false} InitialAsks(cfg: Setup, cl: seq<Client>, f: nat, n: nat)
    requires n <= |cl| == cfg.Clients() && f < cfg.forwarders
    requires forall c :: 0 <= c < |cl| ==> cl[c] == NewClient(cfg)
    ensures var served := if n <= f * cfg.Threshold() then 0
            else if n <= f * cfg.Threshold() + cfg.Threshold() then n - f * cfg.Threshold() else cfg.Threshold();
            AsksOf(cfg, cl, f, n) == served * RequestsPerClient(cfg)
  {
    hide AsksLeft, Config.Home, Config.Clients, Config.Threshold, RequestsPerClient, Interval;
    if n > 0 {
      InitialAsks(cfg, cl, f, n - 1);
      NewClientAsks(cfg);
      ServedBy(cfg, f);
      if f * cfg.Threshold() < n <= f * cfg.Threshold() + cfg.Threshold() {
        Distribute(n - f * cfg.Threshold(), RequestsPerClient(cfg));
      }
    }
  }

  /** What a forwarder has received and what it has yet to receive. */
  ghost predicate Counted(cfg: Setup, s: State, f: nat)
    requires Sized(cfg, s) && f < |s.fw|
  {
    |s.fw[f].records| + AsksOf(cfg, s.cl, f, |s.cl|) == RequestsPerForwarder(cfg)
  }

  lemma InitCounts(cfg: Setup, s: State, f: nat)
    requires Init(cfg, s) && f < cfg.forwarders
    ensures Sized(cfg, s) && Counted(cfg, s, f)
  {
    hide AsksOf, Sized, Config.Home, ShutdownThreshold, RequestsPerClient;
    InitInv(cfg, s);
    SizedOf(cfg, s);
    InitialAsks(cfg, s.cl, f, |s.cl|);
    BlockFits(f, cfg.worldSize, cfg.forwarders);
  }

  lemma ClientStepCounts(cfg: Setup, s: State, s': State, c: nat, f: nat)
    requires Sized(cfg, s) && Sized(cfg, s') && f < |s.fw| && c < |s.cl| && Counted(cfg, s, f)
    requires s'.fw == s.fw && s'.cl == s.cl[c := s'.cl[c]] && AsksLeft(cfg, s'.cl[c]) == AsksLeft(cfg, s.cl[c])
    ensures Counted(cfg, s', f)
  {
    hide AsksLeft, Config.Home, RequestsPerForwarder;
    AsksOfChanges(cfg, s.cl, s'.cl, f, c, |s.cl|);
  }

  lemma ListenCounts(cfg: Setup, s: State, c: nat, f: nat)
    requires Inv(cfg, s) && Enabled(cfg, s, Listen(c)) && Sized(cfg, s) && Sized(cfg, Do(cfg, s, Listen(c)))
             && f < |s.fw| && Counted(cfg, s, f)
    ensures Counted(cfg, Do(cfg, s, Listen(c)), f)
  {
    hide Inv, Ok, Match, Window, AsksLeft, AsksOf, Listened, Config.Threshold, Config.Clients, RequestsPerForwarder,
      ForwarderOf;
    OkOf(cfg, s, c);
    var s' := Do(cfg, s, Listen(c));
    ListenKeeps(cfg, c, s.cl[c], RecOf(cfg, s, c), |s.fw[cfg.Home(c)].records|, 1000000);
    ListenAsks(cfg, c, s.cl[c], RecOf(cfg, s, c), |s.fw[cfg.Home(c)].records|);
    AsksOfChanges(cfg, s.cl, s'.cl, f, c, |s.cl|);
  }

  lemma ForwarderStepCounts(cfg: Setup, s: State, s': State, f: nat)
    requires Sized(cfg, s) && Sized(cfg, s') && f < |s.fw| && Counted(cfg, s, f) && s.cl != []
    requires SamePoints(s, s') && SameArrivals(s, s')
    ensures Counted(cfg, s', f)
  {
    hide AsksOf, Config.Home, RequestsPerForwarder;
    forall d | 0 <= d < |s.cl|
      ensures AsksLeft(cfg, s'.cl[d]) == AsksLeft(cfg, s.cl[d])
    {
      assert SamePoint(s.cl[d], s'.cl[d]);
    }
    AsksOfChanges(cfg, s.cl, s'.cl, f, 0, |s.cl|);
  }

  lemma StepCounts(cfg: Setup, s: State, l: Label, f: nat)
    requires Inv(cfg, s) && Enabled(cfg, s, l) && Sized(cfg, s) && f < |s.fw| && Counted(cfg, s, f)
    ensures Sized(cfg, Do(cfg, s, l)) && |Do(cfg, s, l).fw| == |s.fw| && Counted(cfg, Do(cfg, s, l), f)
  {
    hide Inv, Sized, Counted, Enabled, Do;
    StepKeepsInv(cfg, s, l);
    SizedOf(cfg, Do(cfg, s, l));
    SizeOf(cfg, Do(cfg, s, l));
    SizeOf(cfg, s);
    if OfForwarder(l) {
      ThresholdIsPositive(cfg.worldSize, cfg.forwarders);
      ForwarderAsksNothing(cfg, s, l);
      ForwarderStepCounts(cfg, s, Do(cfg, s, l), f);
    } else if l.Listen? {
      ListenCounts(cfg, s, l.c, f);
    } else {
      ClientCounts(cfg, s, l, f);
    }
  }

  lemma ClientCounts(cfg: Setup, s: State, l: Label, f: nat)
    requires Inv(cfg, s) && Enabled(cfg, s, l) && (l.Go? || l.Recv? || l.Cross?)
    requires Sized(cfg, s) && Sized(cfg, Do(cfg, s, l)) && f < |s.fw| && Counted(cfg, s, f)
    ensures Counted(cfg, Do(cfg, s, l), f)
  {
    hide Inv, Ok, Match, Window, AsksLeft, AsksOf, Config.Home, Config.Clients, RequestsPerForwarder, AllArrived,
      DataAccepted, Protocol.Go, Protocol.Recv, Protocol.Cross;
    OkOf(cfg, s, l.c);
    var rec := RecOf(cfg, s, l.c);
    match l
    case Go(c) => GoAsks(cfg, c, s.cl[c], rec); ClientStepCounts(cfg, s, Do(cfg, s, l), c, f);
    case Recv(c) => RecvAsks(cfg, c, s.cl[c], rec); ClientStepCounts(cfg, s, Do(cfg, s, l), c, f);
    case Cross(c) => CrossAsks(cfg, c, s.cl[c], rec); ClientStepCounts(cfg, s, Do(cfg, s, l), c, f);
  }

  /**
   At any time, what a forwarder has received and what its clients have yet to ask make up a number that the set-
   up fixes.
   */
  lemma {:induction false} RequestsAreCounted(cfg: Setup, run: seq<State>, i: nat, f: nat)
    requires IsRun(cfg, run) && i < |run| && f < cfg.forwarders
    ensures Sized(cfg, run[i]) && f < |run[i].fw| && Counted(cfg, run[i], f)
  {
    hide Init, Inv, Enabled, Do, Counted;
    RunKeepsInv(cfg, run, i);
    SizedOf(cfg, run[i]);
    if i == 0 {
      InitCounts(cfg, run[0], f);
    } else {
      RequestsAreCounted(cfg, run, i - 1, f);
      RunKeepsInv(cfg, run, i - 1);
      assert Pipeline.Follows(cfg, run[i - 1], run[i - 1 + 1]);
      var l :| Enabled(cfg, run[i - 1], l) && run[i] == Do(cfg, run[i - 1], l);
      StepCounts(cfg, run[i - 1], l, f);
    }
  }

  lemma {:induction false} AsksOfIsNat(cfg: Setup, s: State, f: nat, n: nat)
    requires Inv(cfg, s) && n <= |s.cl| == cfg.Clients()
    ensures 0 <= AsksOf(cfg, s.cl, f, n)
  {
    hide Inv, AsksLeft, Ok, Config.Home, Config.Clients;
    if n > 0 {
      AsksOfIsNat(cfg, s, f, n - 1);
      IsOne(cfg, s, n - 1);
      OkOf(cfg, s, n - 1);
      AsksLeftIsNat(cfg, n - 1, s.cl[n - 1], RecOf(cfg, s, n - 1));
    }
  }

  lemma AsksLeftIsNat(cfg: Setup, c: nat, cl: Client, rec: Record)
    requires Ok(cfg, c, cl, rec)
    ensures 0 <= AsksLeft(cfg, cl) && (Order(cl.phase) > 5 ==> AsksLeft(cfg, cl) == 0)
  {
    hide Iterations;
  }

  /** No forwarder ever receives more requests than the set-up has its clients make. */
  lemma RequestsAreBounded(cfg: Setup, run: seq<State>, i: nat, f: nat)
    requires IsRun(cfg, run) && i < |run| && f < |run[i].fw|
    ensures |run[i].fw[f].records| <= RequestsPerForwarder(cfg)
  {
    hide IsRun, Inv, AsksOf, RequestsPerForwarder;
    RunKeepsInv(cfg, run, i);
    SizeOf(cfg, run[i]);
    RequestsAreCounted(cfg, run, i, f);
    AsksOfIsNat(cfg, run[i], f, |run[i].cl|);
  }

  // ---------- a set-up with room ----------

  /** The set-up has each forwarder receive fewer requests than there are identifiers. */
  predicate Roomy(cfg: Setup) {
    RequestsPerForwarder(cfg) < CYCLE
  }

  /** In such a set-up the window of identifiers restricts nothing. */
  lemma RoomyHasRoom(cfg: Setup, run: seq<State>, i: nat, f: nat)
    requires IsRun(cfg, run) && i < |run| && f < |run[i].fw| && Roomy(cfg)
    ensures HasRoom(run[i].fw[f])
  {
    hide IsRun, RequestsPerForwarder;
    RequestsAreBounded(cfg, run, i, f);
  }

  lemma {:induction false} NothingLeft(cfg: Setup, s: State, f: nat, n: nat)
    requires Inv(cfg, s) && n <= |s.cl| == cfg.Clients() && forall c :: 0 <= c < |s.cl| ==> s.cl[c].phase == Done
    ensures AsksOf(cfg, s.cl, f, n) == 0
  {
    hide Inv, AsksLeft, Ok, Config.Home, Config.Clients;
    if n > 0 {
      NothingLeft(cfg, s, f, n - 1);
      IsOne(cfg, s, n - 1);
      OkOf(cfg, s, n - 1);
      AsksLeftIsNat(cfg, n - 1, s.cl[n - 1], RecOf(cfg, s, n - 1));
    }
  }

  /**
   When all clients are done, every forwarder has received an open, a close and one request per round for writing and
   for reading, from each of its clients; the rounds are as many as fit into the total size.
   */
  lemma AllRequestsWereMade(cfg: Setup, run: seq<State>, i: nat, f: nat) returns (rounds: nat)
    requires IsRun(cfg, run) && i < |run| && f < |run[i].fw| && AllComplete(run[i])
    ensures var clients := cfg.worldSize - cfg.forwarders;
            clients * rounds * cfg.requestSize <= cfg.totalSize < clients * (rounds + 1) * cfg.requestSize
    ensures |run[i].fw[f].records| == ((cfg.worldSize - cfg.forwarders) / cfg.forwarders) *
                                      ((if cfg.write then rounds + 2 else 0) + (if cfg.read then rounds + 2 else 0))
    ensures |run[i].fw[f].records| == RequestsPerForwarder(cfg)
  {
    hide IsRun, Inv, AsksOf, Iterations;
    RunKeepsInv(cfg, run, i);
    SizeOf(cfg, run[i]);
    RequestsAreCounted(cfg, run, i, f);
    NothingLeft(cfg, run[i], f, |run[i].cl|);
    rounds := cfg.Rounds();
    RoundsFit(cfg);
  }
}
