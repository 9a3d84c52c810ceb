/**
 What the clients make their forwarders do. The requests that a forwarder has received from a
 client are, in order, the beginning of the client's program, and all of it once the client is done.
 */
module Workload {
  import opened Forge
  import opened Offsets
  import opened Protocol
  import opened Conversation
  import opened Forwarding
  import opened Pipeline
  import opened Invariant
  import opened Steps
  import opened Guarantees
  import opened Budget

  /** What a client asks for, whatever the descriptor is. */
  datatype Wish = Wish(op: Operation, file: File, offset: int, size: nat)

  function WishOf(msg: Message): Wish {
    Wish(msg.op, msg.file, msg.offset, msg.size)
  }

  /** The offset of round i, written out. */
  function OffsetOf(cfg: Setup, c: nat, i: nat): int {
    match cfg.layout
    case Strided => (i * (cfg.worldSize - cfg.forwarders) + c) * cfg.requestSize
    case Contiguous => (c * cfg.Rounds() + i) * cfg.requestSize
    case Individual => i * cfg.requestSize
  }

  /** The client opens its file, transfers one range in each round, and closes the file. */
  function Part(cfg: Setup, c: nat, op: Operation): seq<Wish> {
    var file := if cfg.layout == Individual then FileOf(c) else SharedFile;
    [Wish(OPEN, file, 0, 1)]
    + seq(cfg.Rounds(), i requires 0 <= i => Wish(op, file, OffsetOf(cfg, c, i), cfg.requestSize))
    + [Wish(CLOSE, file, 0, 1)]
  }

  /** First it writes, then it reads, as the set-up has it. */
  function Program(cfg: Setup, c: nat): seq<Wish> {
    (if cfg.write then Part(cfg, c, WRITE) else []) + (if cfg.read then Part(cfg, c, READ) else [])
  }

  /** What these records have of a client, in the order in which they were made. */
  function Received(records: seq<Record>, c: nat): seq<Wish> {
    if records == [] then []
    else
      var last := records[|records| - 1];
      Received(records[..|records| - 1], c) + if last.req.rank == c then [WishOf(last.req.msg)] else []
  }

  lemma ProgramLength(cfg: Setup, c: nat)
    ensures |Program(cfg, c)| == RequestsPerClient(cfg)
  {
    hide Iterations, ShutdownThreshold, Part;
    PartIs(cfg, c, WRITE, 0);
    PartIs(cfg, c, READ, 0);
  }

  /** The entries of a part of the program. */
  lemma PartIs(cfg: Setup, c: nat, op: Operation, i: nat)
    requires i <= cfg.Rounds()
    ensures var part, n := Part(cfg, c, op), cfg.Rounds();
            && |part| == n + 2
            && part[0] == Wish(OPEN, cfg.FileFor(c), 0, 1) && part[n + 1] == Wish(CLOSE, cfg.FileFor(c), 0, 1)
            && (i < n ==> part[i + 1] == Wish(op, cfg.FileFor(c), OffsetOf(cfg, c, i), cfg.requestSize))
  {
    hide Iterations, OffsetOf;
  }

  /** How many requests a client has made before its present phase. */
  function Before(cfg: Setup, p: Phase): nat {
    var n := cfg.Rounds();
    match p
    case WriteOpen => 0
    case Writing => 1
    case WriteClose => n + 1
    case ReadOpen => if cfg.write then n + 2 else 0
    case Reading => if cfg.write then n + 3 else 1
    case ReadClose => if cfg.write then 2 * n + 3 else n + 1
    case _ => RequestsPerClient(cfg)
  }

  lemma LeftIs(cfg: Setup, p: Phase)
    requires (Order(p) <= 2 ==> cfg.write) && (3 <= Order(p) <= 5 ==> cfg.read)
    ensures Before(cfg, p) + InPhase(cfg, p) + InLaterPhases(cfg, p) == RequestsPerClient(cfg)
  {
    hide Iterations;
    assert InLaterPhases(cfg, SigningOff) == 0;
    assert InLaterPhases(cfg, Reading) == 1;
    if cfg.write { assert InLaterPhases(cfg, WriteClose) == if cfg.read then cfg.Rounds() + 2 else 0; }
  }

  /** The request of a phase, or of a round of it, stands in the program behind those of the phases before. */
  lemma WishInProgram(cfg: Setup, c: nat, p: Phase, i: nat)
    requires Order(p) <= 5 && (Order(p) <= 2 ==> cfg.write) && (3 <= Order(p) <= 5 ==> cfg.read)
    requires i < InPhase(cfg, p)
    ensures var k := Before(cfg, p) + i;
            && k < |Program(cfg, c)|
            && Program(cfg, c)[k] ==
               match p
               case WriteOpen => Wish(OPEN, cfg.FileFor(c), 0, 1)
               case ReadOpen => Wish(OPEN, cfg.FileFor(c), 0, 1)
               case Writing => Wish(WRITE, cfg.FileFor(c), OffsetOf(cfg, c, i), cfg.requestSize)
               case Reading => Wish(READ, cfg.FileFor(c), OffsetOf(cfg, c, i), cfg.requestSize)
               case _ => Wish(CLOSE, cfg.FileFor(c), 0, 1)
  {
    hide Iterations, ShutdownThreshold, OffsetOf, Part;
    PartIs(cfg, c, WRITE, if Looping(p) then i else 0);
    PartIs(cfg, c, READ, if Looping(p) then i else 0);
  }

  /** The client's next request is the next one of its program. */
  lemma AskIsNext(cfg: Setup, c: nat, cl: Client, rec: Record)
    requires Ok(cfg, c, cl, rec) && cl.cur == Sent && c < cfg.Clients()
    ensures var k := |Program(cfg, c)| - AsksLeft(cfg, cl);
            0 <= k < |Program(cfg, c)| && Program(cfg, c)[k] == WishOf(AskFor(cfg, c, cl))
  {
    hide Iterations, ShutdownThreshold, Program, OffsetOf, InLaterPhases, Before, Config.Place, RequestsPerClient;
    var i := if Looping(cl.phase) then cl.i else 0;
    ProgramLength(cfg, c);
    LeftIs(cfg, cl.phase);
    WishInProgram(cfg, c, cl.phase, i);
    if Looping(cl.phase) { PlaceIs(cfg, c, cl.i); }
  }

  lemma PlaceIs(cfg: Setup, c: nat, i: nat)
    requires i < cfg.Rounds()
    ensures cfg.Place(c, i) == OffsetOf(cfg, c, i)
  {
    hide Iterations, ShutdownThreshold;
    if cfg.layout != Individual { OffsetsAre(cfg.layout, cfg.Clients(), cfg.Rounds(), cfg.requestSize, c, i); }
  }

  // ---------- steps ----------

  lemma {:induction false} SameReceived(a: seq<Record>, b: seq<Record>, c: nat)
    requires |a| == |b| && forall k :: 0 <= k < |a| ==> b[k].req == a[k].req
    ensures Received(b, c) == Received(a, c)
  {
    if a != [] { SameReceived(a[..|a| - 1], b[..|b| - 1], c); }
  }

  lemma ReceivedOneMore(records: seq<Record>, rec: Record, c: nat)
    ensures Received(records + [rec], c) ==
            Received(records, c) + if rec.req.rank == c then [WishOf(rec.req.msg)] else []
  {
    assert (records + [rec])[..|records|] == records;
  }

  /** Forwarder f has received the beginning of the client's program, or nothing if it does not serve the client. */
  ghost predicate OnTrack(cfg: Setup, s: State, f: nat, c: nat)
    requires f < |s.fw| && c < |s.cl| && c < cfg.Clients()
  {
    var k := |Program(cfg, c)| - AsksLeft(cfg, s.cl[c]);
    && 0 <= k <= |Program(cfg, c)|
    && Received(s.fw[f].records, c) == if f == cfg.Home(c) then Program(cfg, c)[..k] else []
  }

  lemma StaysOnTrack(cfg: Setup, s: State, s': State, f: nat, c: nat)
    requires f < |s.fw| == |s'.fw| && c < |s.cl| == |s'.cl| && c < cfg.Clients() && OnTrack(cfg, s, f, c)
    requires SameRequests(s.fw[f], s'.fw[f]) && AsksLeft(cfg, s'.cl[c]) == AsksLeft(cfg, s.cl[c])
    ensures OnTrack(cfg, s', f, c)
  {
    hide Received, AsksLeft, Program, Config.Home;
    SameReceived(s.fw[f].records, s'.fw[f].records, c);
  }

  lemma InitOnTrack(cfg: Setup, s: State, f: nat, c: nat)
    requires Init(cfg, s) && f < |s.fw| && c < |s.cl| && c < cfg.Clients()
    ensures OnTrack(cfg, s, f, c)
  {
    hide AsksLeft, Program, Config.Home, Config.Clients;
    NewClientAsks(cfg);
    ProgramLength(cfg, c);
  }

  lemma ForwarderOnTrack(cfg: Setup, s: State, l: Label, f: nat, c: nat)
    requires Enabled(cfg, s, l) && OfForwarder(l) && f < |s.fw| && c < |s.cl| && c < cfg.Clients()
    requires OnTrack(cfg, s, f, c)
    ensures var s' := Do(cfg, s, l); f < |s'.fw| && c < |s'.cl| && OnTrack(cfg, s', f, c)
  {
    hide Enabled, Do, OnTrack, Config.Clients;
    ForwarderAsksNothing(cfg, s, l);
    assert SamePoint(s.cl[c], Do(cfg, s, l).cl[c]);
    StaysOnTrack(cfg, s, Do(cfg, s, l), f, c);
  }

  lemma ClientOnTrack(cfg: Setup, s: State, l: Label, f: nat, c: nat)
    requires Inv(cfg, s) && Enabled(cfg, s, l) && (l.Go? || l.Recv? || l.Cross?)
    requires f < |s.fw| && c < |s.cl| && c < cfg.Clients() && OnTrack(cfg, s, f, c)
    ensures var s' := Do(cfg, s, l); f < |s'.fw| && c < |s'.cl| && OnTrack(cfg, s', f, c)
  {
    hide Inv, Ok, Match, Window, AsksLeft, OnTrack, Config.Home, Config.Clients, AllArrived, DataAccepted,
      Protocol.Go, Protocol.Recv, Protocol.Cross;
    OkOf(cfg, s, l.c);
    var rec := RecOf(cfg, s, l.c);
    match l {
      case Go(d) => GoAsks(cfg, d, s.cl[d], rec);
      case Recv(d) => RecvAsks(cfg, d, s.cl[d], rec);
      case Cross(d) => CrossAsks(cfg, d, s.cl[d], rec);
    }
    StaysOnTrack(cfg, s, Do(cfg, s, l), f, c);
  }

  /** What the listener receives is what the client is to ask next. */
  lemma ListenedIsNext(cfg: Setup, s: State, c: nat)
    requires Inv(cfg, s) && Enabled(cfg, s, Listen(c)) && c < cfg.Clients()
    ensures var cl, cl' := s.cl[c], Listened(s.cl[c], |s.fw[cfg.Home(c)].records|);
            match Content(cl.toServer, TAG_REQUEST)
            case Ask(msg) =>
              var k := |Program(cfg, c)| - AsksLeft(cfg, cl);
              AsksLeft(cfg, cl') == AsksLeft(cfg, cl) - 1 && 0 <= k < |Program(cfg, c)|
                && Program(cfg, c)[k] == WishOf(msg)
            case SignOff => AsksLeft(cfg, cl') == AsksLeft(cfg, cl)
            case _ => false
  {
    hide Inv, Match, Window, AsksLeft, Program, Listened, Config.Home, Config.Clients, Config.Place;
    OkOf(cfg, s, c);
    var cl, rec, addr := s.cl[c], RecOf(cfg, s, c), |s.fw[cfg.Home(c)].records|;
    ListenKeeps(cfg, c, cl, rec, addr, 1000000);
    ListenAsks(cfg, c, cl, rec, addr);
    if cl.cur == Sent {
      FirstMatches(cl.toServer, TAG_REQUEST);
      AskIsNext(cfg, c, cl, rec);
    }
  }

  lemma ListenOnTrack(cfg: Setup, s: State, d: nat, f: nat, c: nat)
    requires Inv(cfg, s) && Enabled(cfg, s, Listen(d))
    requires f < |s.fw| && c < |s.cl| && c < cfg.Clients() && OnTrack(cfg, s, f, c)
    ensures var s' := Do(cfg, s, Listen(d)); f < |s'.fw| && c < |s'.cl| && OnTrack(cfg, s', f, c)
  {
    hide Inv, Match, Window, AsksLeft, Program, Received, Listened, Config.Home, Config.Clients, Config.Threshold;
    var s' := Do(cfg, s, Listen(d));
    ListenedIsNext(cfg, s, d);
    match Content(s.cl[d].toServer, TAG_REQUEST)
    case Ask(msg) =>
      if f == cfg.Home(d) {
        var records := s.fw[f].records;
        var rec := NewRecord(NextId(s.fw[f].globalId), d, msg);
        assert s'.fw[f].records == records + [rec];
        ReceivedOneMore(records, rec, c);
      }
    case SignOff => StaysOnTrack(cfg, s, s', f, c);
  }

  lemma StepOnTrack(cfg: Setup, s: State, l: Label, f: nat, c: nat)
    requires Inv(cfg, s) && Enabled(cfg, s, l)
    requires f < |s.fw| && c < |s.cl| && c < cfg.Clients() && OnTrack(cfg, s, f, c)
    ensures var s' := Do(cfg, s, l); f < |s'.fw| && c < |s'.cl| && OnTrack(cfg, s', f, c)
  {
    hide Inv, Enabled, Do, OnTrack, Config.Clients;
    if OfForwarder(l) {
      ForwarderOnTrack(cfg, s, l, f, c);
    } else if l.Listen? {
      ListenOnTrack(cfg, s, l.c, f, c);
    } else {
      ClientOnTrack(cfg, s, l, f, c);
    }
  }

  lemma {:induction false} RunIsOnTrack(cfg: Setup, run: seq<State>, i: nat, f: nat, c: nat)
    requires IsRun(cfg, run) && i < |run| && f < cfg.forwarders && c < cfg.Clients()
    ensures f < |run[i].fw| && c < |run[i].cl| && OnTrack(cfg, run[i], f, c)
  {
    hide Inv, Enabled, Do, OnTrack, Config.Clients;
    RunKeepsInv(cfg, run, i);
    SizeOf(cfg, run[i]);
    if i == 0 {
      InitOnTrack(cfg, run[0], f, c);
    } else {
      RunIsOnTrack(cfg, run, i - 1, f, c);
      RunKeepsInv(cfg, run, i - 1);
      assert Pipeline.Follows(cfg, run[i - 1], run[i - 1 + 1]);
      var l :| Enabled(cfg, run[i - 1], l) && run[i] == Do(cfg, run[i - 1], l);
      StepOnTrack(cfg, run[i - 1], l, f, c);
    }
  }

  // ---------- the main result ----------

  /**
   In every state of every run, what a forwarder has received from a client that it serves is, in order, the beginning
   of the client's program; from any other client it has received nothing. When the client is done it is the whole
   program: each request of the workload was made exactly once.
   */
  lemma RequestsFollowPrograms(cfg: Setup, run: seq<State>, i: nat, f: nat, c: nat)
    requires IsRun(cfg, run) && i < |run| && f < cfg.forwarders && c < cfg.worldSize - cfg.forwarders
    ensures f < |run[i].fw| && c < |run[i].cl|
    ensures var received := Received(run[i].fw[f].records, c);
            if InBlock(f, c + cfg.forwarders, cfg.worldSize, cfg.forwarders) then
              received <= Program(cfg, c) && (run[i].cl[c].phase == Done ==> received == Program(cfg, c))
            else received == []
  {
    hide IsRun, Inv, AsksLeft, Program, Received, InBlock;
    RunIsOnTrack(cfg, run, i, f, c);
    RunKeepsInv(cfg, run, i);
    IsOne(cfg, run[i], c);
    OkOf(cfg, run[i], c);
    AsksLeftIsNat(cfg, c, run[i].cl[c], RecOf(cfg, run[i], c));
    ClientsAreBalanced(f, cfg.worldSize, cfg.forwarders);
  }
}
