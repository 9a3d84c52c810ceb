/**
 That the runs are all interleavings: in every state of every run, whoever has something to do can do
 it next. No step waits for another thread's, beyond what it needs itself.
 */
module Interleavings {
  import opened Protocol
  import opened Forwarding
  import opened Pipeline
  import opened Invariant
  import opened Steps
  import opened Guarantees
  import opened Conservation

  /** A state of a run before any fault. */
  ghost predicate Sound(cfg: Setup, run: seq<State>, i: nat) {
    i < |run| && IsRun(cfg, run) && run[i].fault == NoFault
  }

  lemma ItsTables(cfg: Setup, run: seq<State>, i: nat, f: nat)
    requires i < |run| && Sound(cfg, run, i) && f < |run[i].fw|
    ensures Inv(cfg, run[i]) && Tables(run[i].fw[f])
    ensures |run[i].fw[f].handlers| == cfg.handlers && |run[i].fw[f].workers| == cfg.workers
  {
    hide IsRun;
    RunKeepsInv(cfg, run, i);
    assert ForwarderOk(cfg, run[i].fw[f]);
  }

  /** Any free handler can take the oldest incoming request, if there is any. */
  lemma AnyHandlerTakes(cfg: Setup, run: seq<State>, i: nat, f: nat, h: nat)
    requires i < |run| && Sound(cfg, run, i) && f < |run[i].fw|
    ensures var fw := run[i].fw[f];
            && |fw.handlers| == cfg.handlers
            && (Enabled(cfg, run[i], Take(f, h)) <==>
                h < cfg.handlers && fw.handlers[h] == Free &&
                exists a: nat :: a < |fw.records| && fw.records[a].stage == Incoming)
  {
    hide IsRun, Inv, Staffed, Registry, Scheduling, ReadyQueue, Batched, AllTracked, Identified;
    ItsTables(cfg, run, i, f);
    var fw := run[i].fw[f];
    if fw.taken < |fw.records| { assert fw.records[fw.taken].stage == Incoming; }
  }

  /** Any free pool thread can take the oldest job, if there is any. */
  lemma AnyThreadPulls(cfg: Setup, run: seq<State>, i: nat, f: nat, w: nat)
    requires i < |run| && Sound(cfg, run, i) && f < |run[i].fw|
    ensures var fw := run[i].fw[f];
            && |fw.workers| == cfg.workers
            && (Enabled(cfg, run[i], Pull(f, w)) <==>
                w < cfg.workers && fw.workers[w] == Free && fw.pulled < |fw.jobs|)
  {
    hide IsRun, Inv, Core;
    ItsTables(cfg, run, i, f);
    if run[i].fw[f].pulled < |run[i].fw[f].jobs| { assert JobOk(run[i].fw[f], run[i].fw[f].pulled); }
  }

  /** The scheduler can return any of the requests that it was given. */
  lemma AnyRequestIsReleased(cfg: Setup, run: seq<State>, i: nat, f: nat, id: nat)
    requires i < |run| && Sound(cfg, run, i) && f < |run[i].fw|
    ensures var fw := run[i].fw[f];
            Enabled(cfg, run[i], Release(f, id)) <==>
            exists a: nat :: a < |fw.records| && fw.records[a].stage == Scheduled && fw.records[a].req.id == id
  {
    hide IsRun, Inv, Staffed, ReadyQueue, Batched, AllTracked, Identified;
    ItsTables(cfg, run, i, f);
    var fw := run[i].fw[f];
    if id in fw.agios {
      assert At(fw, id, Scheduled) && Entry(fw, id);
    }
  }

  /** Any batch that a thread works on can be transferred or answered further. */
  lemma AnyBatchGoesOn(cfg: Setup, run: seq<State>, i: nat, f: nat, j: nat)
    requires i < |run| && Sound(cfg, run, i) && f < |run[i].fw| && j < |run[i].fw[f].batches|
    ensures var b := run[i].fw[f].batches[j];
            && (Enabled(cfg, run[i], Label.Perform(f, j)) <==> b.progress.On? && b.performed < |b.items|)
            && (Enabled(cfg, run[i], Label.Complete(f, j)) <==> b.progress.On? && b.performed == |b.items|)
  {
    hide IsRun, Inv, Registry, Scheduling, ReadyQueue, AllTracked, Identified;
    ItsTables(cfg, run, i, f);
    var fw := run[i].fw[f];
    assert BatchOk(fw, j) && BatchManned(fw, j);
    var b := fw.batches[j];
    if b.performed < |b.items| { assert ItemOk(fw, b, b.performed); }
  }

  /** Any request with a thread can be served further; an open may get any descriptor that is not in use. */
  lemma AnyRequestGoesOn(cfg: Setup, run: seq<State>, i: nat, f: nat, a: nat)
    requires i < |run| && Sound(cfg, run, i) && f < |run[i].fw| && a < |run[i].fw[f].records|
    ensures var fw := run[i].fw[f];
            match fw.records[a].stage
            case Held => forall fd :: fd !in fw.descriptors ==> Enabled(cfg, run[i], Serve(f, a, fd))
            case Opened(_) => Enabled(cfg, run[i], SendHandle(f, a))
            case Closed => forall ack :: Enabled(cfg, run[i], AckClose(f, a, ack))
            case Begun => Enabled(cfg, run[i], Start(f, a))
            case IdSent => Enabled(cfg, run[i], Label.Register(f, a))
            case Received => Enabled(cfg, run[i], Label.Register(f, a))
            case Registered => Enabled(cfg, run[i], Label.Schedule(f, a))
            case _ => true
  {
    hide IsRun, Inv, Tables;
    ItsTables(cfg, run, i, f);
    if !run[i].fw[f].records[a].stage.Finished? { RankIsClient(cfg, run[i], f, a); }
  }

  lemma RankIsClient(cfg: Setup, s: State, f: nat, a: nat)
    requires Inv(cfg, s) && f < |s.fw| && a < |s.fw[f].records| && !s.fw[f].records[a].stage.Finished?
    ensures HasRecord(s, f, a)
  {
    hide Tables, Ok;
    assert OwnerOk(cfg, s, f, a);
  }

  /** Who takes a packet from the client: the thread that waits for its buffer, or the listener. */
  predicate TakesPacket(cfg: Setup, s: State, c: nat, l: Label)
    requires IsClient(cfg, s, c)
  {
    if s.cl[c].pc == WaitAck then s.cl[c].cur.Got? && l == GetBuffer(cfg.Home(c), s.cl[c].cur.addr) else l == Listen(c)
  }

  /**
   Any client that is ready can issue its next request, any that has been sent what it waits for can receive it, and
   any packet of a client can be taken from its channel, given another identifier.
   */
  lemma AnyClientGoesOn(cfg: Setup, run: seq<State>, i: nat, c: nat)
    requires i < |run| && Sound(cfg, run, i) && c < |run[i].cl|
    ensures IsClient(cfg, run[i], c)
    ensures var s, cl := run[i], run[i].cl[c];
            && (Enabled(cfg, s, Label.Go(c)) <==> cl.pc == Ready && cl.phase != Done)
            && (Enabled(cfg, s, Label.Recv(c)) <==> cl.pc != Ready && cl.pc != AtBarrier && cl.toClient != [])
            && (cl.toServer != [] && HasRoom(s.fw[cfg.Home(c)]) ==>
                  forall l :: TakesPacket(cfg, s, c, l) ==> Enabled(cfg, s, l))
  {
    hide IsRun, Inv, Ok, Match, HasRoom, TakesPacket, Enabled, CanRecv, Arrived;
    RunKeepsInv(cfg, run, i);
    var s := run[i];
    IsOne(cfg, s, c);
    OkOf(cfg, s, c);
    ReceivesWhatCame(cfg, c, s.cl[c], RecOf(cfg, s, c));
    ClientEnabled(cfg, s, c);
    if s.cl[c].toServer != [] && HasRoom(s.fw[cfg.Home(c)]) {
      forall l | TakesPacket(cfg, s, c, l) ensures Enabled(cfg, s, l) { PacketIsTaken(cfg, s, c, l); }
    }
  }

  lemma ClientEnabled(cfg: Setup, s: State, c: nat)
    requires IsClient(cfg, s, c) && s.fault == NoFault
    ensures Enabled(cfg, s, Label.Go(c)) <==> s.cl[c].pc == Ready && s.cl[c].phase != Done
    ensures Enabled(cfg, s, Label.Recv(c)) <==> CanRecv(s.cl[c])
  {
    hide CanRecv;
  }

  lemma ReceivesWhatCame(cfg: Setup, c: nat, cl: Client, rec: Record)
    requires Ok(cfg, c, cl, rec)
    ensures CanRecv(cl) <==> cl.pc != Ready && cl.pc != AtBarrier && cl.toClient != []
  {
  }

  lemma PacketIsTaken(cfg: Setup, s: State, c: nat, l: Label)
    requires Inv(cfg, s) && s.fault == NoFault && IsClient(cfg, s, c) && s.cl[c].toServer != []
    requires HasRoom(s.fw[cfg.Home(c)]) && TakesPacket(cfg, s, c, l)
    ensures Enabled(cfg, s, l)
  {
    hide Inv, HasRoom, Window;
    OkOf(cfg, s, c);
    RoomIsWindow(s.fw[cfg.Home(c)], c);
    if s.cl[c].cur.Got? { CurrentRecord(cfg, s, c); }
  }
}
