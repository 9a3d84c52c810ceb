/** What the pipeline guarantees in every state of every run. */
module Guarantees {
  import Arithmetic
  import opened Forge
  import opened Offsets
  import opened Protocol
  import opened Conversation
  import opened Forwarding
  import opened Pipeline
  import opened Invariant
  import opened Steps

  // ---------- runs keep the invariant ----------

  lemma InitTables(cfg: Setup)
    ensures ForwarderOk(cfg, NewForwarder(cfg.handlers, cfg.workers))
  {
  }

  lemma InitInv(cfg: Setup, s: State)
    requires Init(cfg, s)
    ensures Inv(cfg, s)
  {
    hide Tables, ShutdownThreshold, ForwarderOf, Iterations;
    InitTables(cfg);
    ThresholdIsPositive(cfg.worldSize, cfg.forwarders);
    forall c | 0 <= c < |s.cl| ensures IsClient(cfg, s, c) {
      ClientsAreBalanced(0, cfg.worldSize, cfg.forwarders);
      assert ForwarderOf(c + cfg.forwarders, cfg.worldSize, cfg.forwarders) < cfg.forwarders;
    }
    forall f, file | 0 <= f < |s.fw| ensures HandleOk(cfg, s, f, file) && Users(cfg, s, f, file) == {} {}
    forall f | 0 <= f < |s.fw| ensures CountOk(cfg, s, f) { assert Gone(cfg, s, f) == {}; }
  }

  lemma StepKeepsInv(cfg: Setup, s: State, l: Label)
    requires Inv(cfg, s) && Enabled(cfg, s, l)
    ensures Inv(cfg, Do(cfg, s, l))
  {
    hide Inv, Do;
    match l
    case Go(c) => GoStep(cfg, s, c);
    case Recv(c) => RecvStep(cfg, s, c);
    case Cross(c) => CrossStep(cfg, s, c);
    case Listen(c) => ListenStep(cfg, s, c);
    case Take(f, h) => TakeStep(cfg, s, f, h);
    case Serve(f, a, fd) => ServeStep(cfg, s, f, a, fd);
    case SendHandle(f, a) => SendHandleStep(cfg, s, f, a);
    case AckClose(f, a, ack) => AckCloseStep(cfg, s, f, a, ack);
    case Pull(f, w) => PullStep(cfg, s, f, w);
    case Start(f, a) => StartStep(cfg, s, f, a);
    case GetBuffer(f, a) => GetBufferStep(cfg, s, f, a);
    case Register(f, a) => RegisterStep(cfg, s, f, a);
    case Schedule(f, a) => ScheduleStep(cfg, s, f, a);
    case Release(f, id) => ReleaseStep(cfg, s, f, id);
    case Pop(f) => DispatcherStep(cfg, s, l);
    case Lookup(f) => DispatcherStep(cfg, s, l);
    case Gather(f) => DispatcherStep(cfg, s, l);
    case Perform(f, j) => PerformStep(cfg, s, f, j);
    case Complete(f, j) => CompleteStep(cfg, s, f, j);
  }

  lemma ServeStep(cfg: Setup, s: State, f: nat, a: nat, fd: int)
    requires Inv(cfg, s) && Enabled(cfg, s, Label.Serve(f, a, fd))
    ensures Inv(cfg, Do(cfg, s, Label.Serve(f, a, fd)))
  {
    hide Inv, Do;
    match s.fw[f].records[a].req.msg.op
    case OPEN => ServeOpenStep(cfg, s, f, a, fd);
    case CLOSE => ServeCloseStep(cfg, s, f, a, fd);
    case _ => PoolStep(cfg, s, f, a, fd);
  }

  lemma PerformStep(cfg: Setup, s: State, f: nat, j: nat)
    requires Inv(cfg, s) && Enabled(cfg, s, Label.Perform(f, j))
    ensures Inv(cfg, Do(cfg, s, Label.Perform(f, j)))
  {
    hide Inv, Do;
    if Performing(s.fw[f], j).req.msg.op == READ { ReadStep(cfg, s, f, j); } else { WriteStep(cfg, s, f, j); }
  }

  lemma {:induction false} RunKeepsInv(cfg: Setup, run: seq<State>, i: nat)
    requires IsRun(cfg, run) && i < |run|
    ensures Inv(cfg, run[i])
  {
    hide Inv, Init, Enabled, Do;
    if i == 0 {
      InitInv(cfg, run[0]);
    } else {
      RunKeepsInv(cfg, run, i - 1);
      assert Follows(cfg, run[i - 1], run[i - 1 + 1]);
      var l :| Enabled(cfg, run[i - 1], l) && run[i] == Do(cfg, run[i - 1], l);
      StepKeepsInv(cfg, run[i - 1], l);
    }
  }

  // ---------- no fault ----------

  /**
   No look-up of the dispatcher or of a callback fails, no identifier enters the table twice,
   every close finds its entry, every read and write uses an open descriptor, every buffer has
   its announced size, and a run that writes before it reads never fails its validation.
   */
  lemma NoFaultOccurs(cfg: Setup, run: seq<State>, i: nat)
    requires IsRun(cfg, run) && i < |run|
    ensures cfg.write || !cfg.validate ==> run[i].fault == NoFault
    ensures run[i].fault == NoFault || run[i].fault == ValidationFailed
  {
    hide IsRun;
    RunKeepsInv(cfg, run, i);
  }

  /** The byte of a file at offset x is the letter of this rank. */
  predicate HasLetter(files: Files, file: File, x: int, rank: nat) {
    files(file, x) as int == 97 + rank % 25
  }

  /** Before the run, every byte of the range of the client's i-th request is its letter. */
  ghost predicate HeldLetters(cfg: Setup, c: nat, i: nat)
    requires i < cfg.Rounds()
  {
    var o := cfg.Place(c, i);
    forall x :: o <= x < o + cfg.requestSize ==> HasLetter(cfg.before, cfg.FileFor(c), x, c)
  }

  lemma StoredIs(cfg: Setup, c: nat, i: nat)
    requires i < cfg.Rounds()
    ensures HeldLetters(cfg, c, i) <==> cfg.Stored(c, i) == cfg.Fill(c)
  {
    hide Offset;
    var o, stored, fill := cfg.Place(c, i), cfg.Stored(c, i), cfg.Fill(c);
    if stored == fill {
      forall x | o <= x < o + cfg.requestSize
        ensures HasLetter(cfg.before, cfg.FileFor(c), x, c)
      {
        assert stored[x - o] == fill[x - o];
      }
    } else if HeldLetters(cfg, c, i) {
      forall b | 0 <= b < cfg.requestSize ensures stored[b] == fill[b] {
        assert HasLetter(cfg.before, cfg.FileFor(c), o + b, c);
      }
    }
  }

  /** The files differ from the letters exactly if some request's range has another byte. */
  lemma DiffersExactly(cfg: Setup)
    ensures Differs(cfg) <==> exists c: nat, i: nat | c < cfg.Clients() && i < cfg.Rounds() :: !HeldLetters(cfg, c, i)
  {
    hide HeldLetters;
    forall c: nat, i: nat | c < cfg.Clients() && i < cfg.Rounds()
      ensures HeldLetters(cfg, c, i) <==> cfg.Stored(c, i) == cfg.Fill(c)
    {
      StoredIs(cfg, c, i);
    }
  }

  /**
   A run that only reads checks what was there before: a client accepts what it reads in a
   round exactly if every byte of its range held its letter, so no fault occurs if all did.
   */
  lemma ReadOnlyRunsCheckWhatWasThere(cfg: Setup, run: seq<State>, i: nat, c: nat)
    requires IsRun(cfg, run) && i < |run| && c < |run[i].cl| && !cfg.write
    ensures !cfg.validate || !Differs(cfg) ==> run[i].fault == NoFault
    ensures var cl := run[i].cl[c];
            cl.pc == WaitData && CanRecv(cl) ==>
              cl.i < cfg.Rounds() && (DataAccepted(cfg, c, cl) <==> !cfg.validate || HeldLetters(cfg, c, cl.i))
  {
    hide IsRun, Inv, Match, Ok, HeldLetters;
    RunKeepsInv(cfg, run, i);
    IsOne(cfg, run[i], c);
    OkOf(cfg, run[i], c);
    if CanRecv(run[i].cl[c]) {
      RecvKeeps(cfg, c, run[i].cl[c], RecOf(cfg, run[i], c));
      if run[i].cl[c].pc == WaitData { StoredIs(cfg, c, run[i].cl[c].i); }
    }
    FaultIs(cfg, run[i]);
  }

  lemma FaultIs(cfg: Setup, s: State)
    requires Inv(cfg, s)
    ensures FaultOk(cfg, s)
  {
  }

  lemma IsOne(cfg: Setup, s: State, c: nat)
    requires Inv(cfg, s) && c < |s.cl|
    ensures IsClient(cfg, s, c) && cfg.Home(c) < |s.fw|
  {
    hide Tables, Ok;
  }

  // ---------- end to end ----------

  /** What a client receives for a read, in a run that has written, is exactly what it wrote there. */
  lemma ReadsReturnWhatWasWritten(cfg: Setup, run: seq<State>, i: nat, c: nat)
    requires IsRun(cfg, run) && i < |run| && c < |run[i].cl| && cfg.write
    requires run[i].cl[c].pc == WaitData && CanRecv(run[i].cl[c])
    ensures var data := BytesIn(Content(run[i].cl[c].toClient, Awaited(run[i].cl[c])));
            |data| == cfg.requestSize && forall b :: 0 <= b < |data| ==> data[b] as int == 97 + c % 25
  {
    hide IsRun, Match;
    RunKeepsInv(cfg, run, i);
    var cl := run[i].cl[c];
    assert ClientOk(cfg, run[i], c);
    FirstMatches(cl.toClient, Awaited(cl));
    assert BytesIn(Content(cl.toClient, Awaited(cl))) == cfg.Fill(c);
  }

  /** Once any client has passed the barrier after the write phase, every client has written all it had to write. */
  lemma AllHaveWritten(cfg: Setup, s: State, c: nat, d: nat, x: nat)
    requires Inv(cfg, s) && cfg.write && c < |s.cl| && Order(s.cl[c].phase) >= 2
    requires d < |s.cl| && x < cfg.Rounds()
    ensures TileHolds(cfg, s.files, d, x)
  {
    hide TileHolds, Tables, Iterations, ShutdownThreshold, ForwarderOf;
    assert ClientOk(cfg, s, d) && Together(cfg, s.cl[c], s.cl[d]);
    assert Wrote(cfg, s.cl[d], RecOf(cfg, s, d), x);
    WrittenHolds(cfg, s, d, x);
  }

  /** The letters of two clients agree exactly if their ranks agree modulo 25. */
  lemma LettersDiffer(cfg: Setup, c: nat, d: nat)
    ensures cfg.Letter(c) as int == 97 + c % 25
    ensures cfg.Letter(c) == cfg.Letter(d) <==> c % 25 == d % 25
  {
  }

  /** The rounds are as many as fit into the total size with one request per client and round. */
  lemma RoundsFit(cfg: Setup)
    ensures cfg.Clients() == cfg.worldSize - cfg.forwarders >= 1
    ensures cfg.Clients() * cfg.Rounds() * cfg.requestSize <= cfg.totalSize
    ensures cfg.totalSize < cfg.Clients() * (cfg.Rounds() + 1) * cfg.requestSize
  {
    ThresholdIsPositive(cfg.worldSize, cfg.forwarders);
    Remainder(cfg.totalSize, cfg.Clients(), cfg.requestSize);
    assert cfg.Clients() * (cfg.Rounds() + 1) == cfg.Clients() * cfg.Rounds() + cfg.Clients();
    assert (cfg.Clients() * cfg.Rounds() + cfg.Clients()) * cfg.requestSize ==
           cfg.Clients() * cfg.Rounds() * cfg.requestSize + cfg.Clients() * cfg.requestSize;
  }

  /**
   From then on, every byte of the tiled part of a shared file is the letter of one rank: with strided access, ranks
   take turns request by request; with contiguous access, each has a block of as many requests as there are rounds.
   */
  lemma SharedFileHoldsLetters(cfg: Setup, run: seq<State>, i: nat, c: nat, x: nat)
    requires IsRun(cfg, run) && i < |run| && cfg.write && cfg.layout != Individual
    requires c < |run[i].cl| && Order(run[i].cl[c].phase) >= 2
    requires x < (cfg.worldSize - cfg.forwarders) * cfg.Rounds() * cfg.requestSize
    ensures 1 <= cfg.worldSize - cfg.forwarders && 1 <= cfg.Rounds() * cfg.requestSize
    ensures cfg.layout == Strided ==>
              HasLetter(run[i].files, SharedFile, x, (x / cfg.requestSize) % (cfg.worldSize - cfg.forwarders))
    ensures cfg.layout == Contiguous ==> HasLetter(run[i].files, SharedFile, x, x / (cfg.Rounds() * cfg.requestSize))
  {
    hide IsRun, Inv, TileHolds, Owner, Offset, Config.Letter;
    RunKeepsInv(cfg, run, i);
    ThresholdIsPositive(cfg.worldSize, cfg.forwarders);
    EveryByteHasAnOwner(cfg.layout, cfg.Clients(), cfg.Rounds(), cfg.requestSize, x);
    var (rank, round) := Owner(cfg.layout, cfg.Clients(), cfg.Rounds(), cfg.requestSize, x);
    SizeOf(cfg, run[i]);
    AllHaveWritten(cfg, run[i], c, rank, round);
    TileByte(cfg, run[i].files, rank, round, x);
    LettersDiffer(cfg, rank, rank);
    OwnerIs(cfg.layout, cfg.Clients(), cfg.Rounds(), cfg.requestSize, x);
  }

  /** So does every byte of a shared file below the total size less one request per client. */
  lemma SharedFileIsWritten(cfg: Setup, run: seq<State>, i: nat, c: nat, x: nat)
    requires IsRun(cfg, run) && i < |run| && cfg.write && cfg.layout != Individual
    requires c < |run[i].cl| && Order(run[i].cl[c].phase) >= 2
    requires x + (cfg.worldSize - cfg.forwarders) * cfg.requestSize <= cfg.totalSize
    ensures 1 <= cfg.worldSize - cfg.forwarders && 1 <= cfg.Rounds() * cfg.requestSize
    ensures cfg.layout == Strided ==>
              HasLetter(run[i].files, SharedFile, x, (x / cfg.requestSize) % (cfg.worldSize - cfg.forwarders))
    ensures cfg.layout == Contiguous ==>
              && x / (cfg.Rounds() * cfg.requestSize) < cfg.worldSize - cfg.forwarders
              && HasLetter(run[i].files, SharedFile, x, x / (cfg.Rounds() * cfg.requestSize))
  {
    hide IsRun;
    BelowTotal(cfg, x);
    SharedFileHoldsLetters(cfg, run, i, c, x);
    if cfg.layout == Contiguous {
      RankIsClient(x, cfg.Rounds() * cfg.requestSize, cfg.worldSize - cfg.forwarders);
    }
  }

  lemma BelowTotal(cfg: Setup, x: nat)
    requires x + (cfg.worldSize - cfg.forwarders) * cfg.requestSize <= cfg.totalSize
    ensures x < (cfg.worldSize - cfg.forwarders) * cfg.Rounds() * cfg.requestSize
  {
    RoundsFit(cfg);
    assert cfg.Clients() * (cfg.Rounds() + 1) == cfg.Clients() * cfg.Rounds() + cfg.Clients();
    assert (cfg.Clients() * cfg.Rounds() + cfg.Clients()) * cfg.requestSize ==
           cfg.Clients() * cfg.Rounds() * cfg.requestSize + cfg.Clients() * cfg.requestSize;
  }

  lemma RankIsClient(x: nat, block: nat, clients: nat)
    requires 1 <= block && x < clients * block
    ensures x / block < clients
  {
    Arithmetic.BelowBlocks(x, block, clients);
  }

  /** A file of its own holds its client's letter throughout. */
  lemma OwnFileHoldsLetter(cfg: Setup, run: seq<State>, i: nat, c: nat, d: nat, x: nat)
    requires IsRun(cfg, run) && i < |run| && cfg.write && cfg.layout == Individual
    requires c < |run[i].cl| && Order(run[i].cl[c].phase) >= 2
    requires d < |run[i].cl| && x < cfg.Rounds() * cfg.requestSize
    ensures HasLetter(run[i].files, FileOf(d), x, d)
  {
    hide IsRun, Inv, TileHolds, Config.Letter;
    RunKeepsInv(cfg, run, i);
    var round := x / cfg.requestSize;
    Arithmetic.BelowBlocks(x, cfg.requestSize, cfg.Rounds());
    Arithmetic.SameBlock(x, cfg.requestSize, round);
    AllHaveWritten(cfg, run[i], c, d, round);
    TileByte(cfg, run[i].files, d, round, x);
    LettersDiffer(cfg, d, d);
  }

  /** So does every byte of it below its client's share of the total size, less one request. */
  lemma OwnFileIsWritten(cfg: Setup, run: seq<State>, i: nat, c: nat, d: nat, x: nat)
    requires IsRun(cfg, run) && i < |run| && cfg.write && cfg.layout == Individual
    requires c < |run[i].cl| && Order(run[i].cl[c].phase) >= 2
    requires d < |run[i].cl| && (x + cfg.requestSize) * (cfg.worldSize - cfg.forwarders) <= cfg.totalSize
    ensures HasLetter(run[i].files, FileOf(d), x, d)
  {
    hide IsRun;
    BelowShare(cfg, x);
    OwnFileHoldsLetter(cfg, run, i, c, d, x);
  }

  lemma BelowShare(cfg: Setup, x: nat)
    requires (x + cfg.requestSize) * (cfg.worldSize - cfg.forwarders) <= cfg.totalSize
    ensures x < cfg.Rounds() * cfg.requestSize
  {
    RoundsFit(cfg);
    ShareBound(x, cfg.Clients(), cfg.Rounds(), cfg.requestSize);
  }

  lemma ShareBound(x: nat, clients: nat, rounds: nat, size: nat)
    requires (x + size) * clients < clients * (rounds + 1) * size
    ensures x < rounds * size
  {
    assert clients * (rounds + 1) * size == ((rounds + 1) * size) * clients;
    if x + size >= (rounds + 1) * size { Arithmetic.MulMono((rounds + 1) * size, x + size, clients); }
    assert (rounds + 1) * size == rounds * size + size;
  }

  lemma TileByte(cfg: Setup, files: Files, c: nat, i: nat, x: nat)
    requires i < cfg.Rounds() && TileHolds(cfg, files, c, i)
    requires cfg.Place(c, i) <= x < cfg.Place(c, i) + cfg.requestSize
    ensures files(cfg.FileFor(c), x) == cfg.Letter(c)
  {
    hide Offset;
    var o := cfg.Place(c, i);
    assert ReadAt(files, cfg.FileFor(c), o, cfg.requestSize)[x - o] == cfg.Fill(c)[x - o];
  }
}
