/**
 The whole system as a state machine: all clients, all forwarders, the messages
 between them and the files, over every interleaving of their steps.

 A step is what one thread does from one access to shared state to the next. The
 scheduler returns each identifier it was given once, at any time and in any order.
 Messages between two processes stay in order; reads and writes move their full size.
 Where the source would abort or would use what it does not have, a step ends in a fault.
 */
module Pipeline {
  import opened Forge
  import opened Protocol
  import opened Forwarding

  datatype Fault =
    | NoFault
    | UnknownRequest     // an identifier is not in the table of requests
    | DuplicateRequest   // an identifier is already in the table
    | FailedToClose      // a close finds no entry for its file
    | BadDescriptor      // a read or write on a descriptor that is not open
    | WrongSize          // a received buffer has another size than announced
    | ValidationFailed   // the data read is not the data written

  datatype State = State(cl: seq<Client>, fw: seq<Forwarder>, files: Files, fault: Fault)

  datatype Label =
    | Go(c: nat)
    | Recv(c: nat)
    | Cross(c: nat)
    | Listen(c: nat)
    | Take(f: nat, h: nat)
    | Serve(f: nat, a: nat, fd: int)
    | SendHandle(f: nat, a: nat)
    | AckClose(f: nat, a: nat, ack: int)
    | Pull(f: nat, w: nat)
    | Start(f: nat, a: nat)
    | GetBuffer(f: nat, a: nat)
    | Register(f: nat, a: nat)
    | Schedule(f: nat, a: nat)
    | Release(f: nat, id: nat)
    | Pop(f: nat)
    | Lookup(f: nat)
    | Gather(f: nat)
    | Perform(f: nat, j: nat)
    | Complete(f: nat, j: nat)

  ghost predicate Init(cfg: Setup, s: State) {
    && s.cl == seq(cfg.Clients(), _ => NewClient(cfg))
    && s.fw == seq(cfg.forwarders, _ => NewForwarder(cfg.handlers, cfg.workers))
    && s.files == cfg.before && s.fault == NoFault
  }

  /** Everyone has reached the barrier at the end of this phase. */
  predicate AllArrived(s: State, p: Phase) {
    forall d :: 0 <= d < |s.cl| ==> Order(p) < Order(s.cl[d].phase) || (s.cl[d].phase == p && s.cl[d].pc == AtBarrier)
  }

  predicate IsClient(cfg: Setup, s: State, c: nat) {
    c < |s.cl| && c < cfg.Clients() && cfg.Home(c) < |s.fw|
  }

  /** Forwarder f has a record at address a, of a client whose channel exists. */
  predicate HasRecord(s: State, f: nat, a: nat) {
    f < |s.fw| && a < |s.fw[f].records| && s.fw[f].records[a].req.rank < |s.cl|
  }

  predicate AtStage(s: State, f: nat, a: nat, stage: Stage) {
    HasRecord(s, f, a) && s.fw[f].records[a].stage == stage
  }

  predicate Enabled(cfg: Setup, s: State, l: Label) {
    s.fault == NoFault &&
    match l
    case Go(c) => IsClient(cfg, s, c) && s.cl[c].pc == Ready && s.cl[c].phase != Done
    case Recv(c) => IsClient(cfg, s, c) && CanRecv(s.cl[c])
    case Cross(c) => IsClient(cfg, s, c) && s.cl[c].pc == AtBarrier && AllArrived(s, s.cl[c].phase)
    case Listen(c) =>
      && IsClient(cfg, s, c) && Arrived(s.cl[c].toServer, TAG_REQUEST)
      && (var packet := Content(s.cl[c].toServer, TAG_REQUEST);
          packet.Ask? ==> Window(Accept(s.fw[cfg.Home(c)], c, packet.msg)))
    case Take(f, h) => f < |s.fw| && s.fw[f].taken < |s.fw[f].records| && h < |s.fw[f].handlers|
      && s.fw[f].handlers[h] == Free
    case Serve(f, a, fd) => AtStage(s, f, a, Held) && fd !in s.fw[f].descriptors
    case SendHandle(f, a) => HasRecord(s, f, a) && s.fw[f].records[a].stage.Opened?
    case AckClose(f, a, _) => AtStage(s, f, a, Closed)
    case Pull(f, w) => f < |s.fw| && CanPull(s.fw[f], w)
    case Start(f, a) => AtStage(s, f, a, Begun)
    case GetBuffer(f, a) =>
      AtStage(s, f, a, AwaitBuffer) && Arrived(s.cl[s.fw[f].records[a].req.rank].toServer, s.fw[f].records[a].req.id)
    case Register(f, a) => AtStage(s, f, a, IdSent) || AtStage(s, f, a, Received)
    case Schedule(f, a) => AtStage(s, f, a, Registered)
    case Release(f, id) => f < |s.fw| && id in s.fw[f].agios
    case Pop(f) => f < |s.fw| && s.fw[f].dispatcher == Idle && s.fw[f].popped < |s.fw[f].ready|
    case Lookup(f) => f < |s.fw| && s.fw[f].dispatcher.Taken?
    case Gather(f) => f < |s.fw| && s.fw[f].dispatcher.Found? && 1 <= s.fw[f].popped <= |s.fw[f].ready|
    case Perform(f, j) => f < |s.fw| && CanPerform(s.fw[f], j)
    case Complete(f, j) => f < |s.fw| && CanReply(s.fw[f], j)
  }

  function SetClient(s: State, c: nat, cl: Client): State
    requires c < |s.cl|
  {
    s.(cl := s.cl[c := cl])
  }

  function SetForwarder(s: State, f: nat, fw: Forwarder): State
    requires f < |s.fw|
  {
    s.(fw := s.fw[f := fw])
  }

  function Crash(s: State, fault: Fault): State {
    s.(fault := fault)
  }

  /** Packet p goes to the client of record a, and the forwarder changes. */
  function SendTo(s: State, f: nat, a: nat, p: Packet, fw: Forwarder): State
    requires HasRecord(s, f, a)
  {
    var c := s.fw[f].records[a].req.rank;
    SetForwarder(SetClient(s, c, Post(s.cl[c], p)), f, fw)
  }

  function DoListen(cfg: Setup, s: State, c: nat): State
    requires IsClient(cfg, s, c) && Arrived(s.cl[c].toServer, TAG_REQUEST)
  {
    var f := cfg.Home(c);
    var s1 := SetClient(s, c, Listened(s.cl[c], |s.fw[f].records|));
    match Content(s.cl[c].toServer, TAG_REQUEST)
    case Ask(msg) => SetForwarder(s1, f, Accept(s.fw[f], c, msg))
    case SignOff => SetForwarder(s1, f, CountSignOff(s.fw[f], cfg.Threshold()))
    case _ => s1
  }

  /** A handler opens or closes a file, or passes a read or a write to the pool. */
  function DoServe(s: State, f: nat, a: nat, fd: int): State
    requires HasRecord(s, f, a)
  {
    var fw := s.fw[f];
    var msg := fw.records[a].req.msg;
    match msg.op
    case OPEN =>
      var fw1 := Open(fw, msg.file, fd);
      SetForwarder(s, f, SetStage(fw1, a, Opened(fw1.handles[msg.file].fh)))
    case CLOSE =>
      if msg.file !in fw.handles then Crash(s, FailedToClose)
      else SetForwarder(s, f, SetStage(Close(fw, msg.file), a, Closed))
    case _ => SetForwarder(s, f, ToPool(fw, a))
  }

  function DoGetBuffer(s: State, f: nat, a: nat): State
    requires HasRecord(s, f, a)
    requires Arrived(s.cl[s.fw[f].records[a].req.rank].toServer, s.fw[f].records[a].req.id)
  {
    var rec := s.fw[f].records[a];
    var cl := s.cl[rec.req.rank];
    var data := BytesIn(Content(cl.toServer, rec.req.id));
    if |data| != rec.req.msg.size then Crash(s, WrongSize)
    else
      SetForwarder(SetClient(s, rec.req.rank, cl.(toServer := Without(cl.toServer, rec.req.id))),
                   f, SetRecord(s.fw[f], a, rec.(buffer := data, stage := Received)))
  }

  function DoPerform(s: State, f: nat, j: nat): State
    requires f < |s.fw| && CanPerform(s.fw[f], j)
  {
    if Performing(s.fw[f], j).req.msg.handle !in s.fw[f].descriptors then Crash(s, BadDescriptor)
    else
      var (fw, files) := Transfer(s.fw[f], s.files, j);
      SetForwarder(s, f, fw).(files := files)
  }

  function DoComplete(s: State, f: nat, j: nat): State
    requires f < |s.fw| && CanReply(s.fw[f], j)
  {
    var fw := s.fw[f];
    var id := Replying(fw, j);
    if !Known(fw, id) then Crash(s, UnknownRequest)
    else
      var rec := fw.records[fw.requests[id]];
      var c := rec.req.rank;
      var s1 := SetForwarder(s, f, Forwarding.Complete(fw, j));
      if c < |s.cl| then SetClient(s1, c, Post(s.cl[c], Reply(BatchOp(fw.batches[j]), rec))) else s1
  }

  function Do(cfg: Setup, s: State, l: Label): State
    requires Enabled(cfg, s, l)
  {
    match l
    case Go(c) => SetClient(s, c, Protocol.Go(cfg, c, s.cl[c]))
    case Recv(c) =>
      if DataAccepted(cfg, c, s.cl[c]) then SetClient(s, c, Protocol.Recv(cfg, c, s.cl[c]))
      else Crash(s, if |BytesIn(Content(s.cl[c].toClient, Awaited(s.cl[c])))| != cfg.requestSize then WrongSize
        else ValidationFailed)
    case Cross(c) => SetClient(s, c, Protocol.Cross(cfg, s.cl[c]))
    case Listen(c) => DoListen(cfg, s, c)
    case Take(f, h) => SetForwarder(s, f, Forwarding.Take(s.fw[f], h))
    case Serve(f, a, fd) => DoServe(s, f, a, fd)
    case SendHandle(f, a) =>
      var rec := s.fw[f].records[a];
      SendTo(s, f, a, Packet(TAG_HANDLE, Num(rec.stage.fh)), Conclude(s.fw[f], a))
    case AckClose(f, a, ack) => SendTo(s, f, a, Packet(TAG_ACK, Num(ack)), Conclude(s.fw[f], a))
    case Pull(f, w) => SetForwarder(s, f, Forwarding.Pull(s.fw[f], w))
    case Start(f, a) =>
      var rec := s.fw[f].records[a];
      SendTo(s, f, a, IdPacket(rec), SetRecord(s.fw[f], a, Started(rec)))
    case GetBuffer(f, a) => DoGetBuffer(s, f, a)
    case Register(f, a) =>
      if s.fw[f].records[a].req.id in s.fw[f].requests then Crash(s, DuplicateRequest)
      else SetForwarder(s, f, Forwarding.Register(s.fw[f], a))
    case Schedule(f, a) => SetForwarder(s, f, Forwarding.Schedule(s.fw[f], a))
    case Release(f, id) => SetForwarder(s, f, Forwarding.Release(s.fw[f], id))
    case Pop(f) => SetForwarder(s, f, Forwarding.Pop(s.fw[f]))
    case Lookup(f) =>
      if Known(s.fw[f], s.fw[f].dispatcher.id) then SetForwarder(s, f, Forwarding.Lookup(s.fw[f]))
      else Crash(s, UnknownRequest)
    case Gather(f) =>
      if GatherFinds(s.fw[f]) then SetForwarder(s, f, Forwarding.Gather(s.fw[f]))
      else Crash(s, UnknownRequest)
    case Perform(f, j) => DoPerform(s, f, j)
    case Complete(f, j) => DoComplete(s, f, j)
  }

  ghost predicate Follows(cfg: Setup, s: State, s': State) {
    exists l :: Enabled(cfg, s, l) && s' == Do(cfg, s, l)
  }

  /** A run: a sequence of states that begins initially and goes on by enabled steps. */
  ghost predicate IsRun(cfg: Setup, run: seq<State>) {
    && run != [] && Init(cfg, run[0])
    && forall i :: 0 <= i < |run| - 1 ==> Follows(cfg, run[i], run[i + 1])
  }
}
