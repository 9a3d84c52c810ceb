/**
 Every step of a client or of its forwarder keeps their conversation in order,
 and changes in a known way what the conversation means for the rest of the system:
 whether the client has its file open, what it has written, whether it has signed off.
 */
module Conversation {
  import opened Forge
  import opened Protocol

  /** The forwarder has counted the client's open and not yet its close. */
  predicate HasOpen(cl: Client, rec: Record) {
    match cl.phase
    case WriteOpen | ReadOpen => cl.pc == AtBarrier || (cl.cur.Got? && (rec.stage.Opened? || rec.stage.Finished?))
    case Writing | Reading => true
    case WriteClose | ReadClose => cl.pc == Ready || cl.cur == Sent || (cl.cur.Got? && Early(rec))
    case _ => false
  }

  /** The descriptor that the open was given, wherever it is on its way to the client. */
  function Handle(cl: Client, rec: Record): int {
    if cl.cur.Got? && rec.stage.Opened? then rec.stage.fh
    else if cl.cur.Got? && cl.pc == WaitHandle && cl.toClient != [] then NumIn(cl.toClient[0].body)
    else cl.fh
  }

  /** The client's write number x has reached the file. */
  predicate Wrote(cfg: Setup, cl: Client, rec: Record, x: nat) {
    && cfg.write
    && (Order(cl.phase) >= 2
        || (cl.phase == Writing
          && (x < cl.i || (x == cl.i && cl.cur.Got? && (rec.stage.Performed? || rec.stage.Finished?)))))
  }

  predicate SignedOff(cl: Client) {
    cl.toServer == [] && (cl.phase == Done || (cl.phase == SigningOff && cl.pc == AtBarrier))
  }

  predicate SameOpen(cl: Client, rec: Record, cl': Client, rec': Record) {
    && HasOpen(cl, rec) == HasOpen(cl', rec')
    && (HasOpen(cl, rec) ==> Handle(cl, rec) == Handle(cl', rec'))
  }

  ghost predicate SameWrites(cfg: Setup, cl: Client, rec: Record, cl': Client, rec': Record) {
    forall x: nat | x < cfg.Rounds() :: Wrote(cfg, cl, rec, x) == Wrote(cfg, cl', rec', x)
  }

  ghost predicate SameView(cfg: Setup, cl: Client, rec: Record, cl': Client, rec': Record) {
    SameOpen(cl, rec, cl', rec') && SameWrites(cfg, cl, rec, cl', rec') && SignedOff(cl) == SignedOff(cl')
  }

  lemma FirstMatches(q: seq<Packet>, tag: int)
    requires q != [] && q[0].tag == tag
    ensures Match(q, tag) == 0
  {
  }

  // ---------- steps of the client ----------

  lemma GoKeeps(cfg: Setup, c: nat, cl: Client, rec: Record)
    requires Ok(cfg, c, cl, rec) && cl.pc == Ready && cl.phase != Done
    ensures Ok(cfg, c, Go(cfg, c, cl), rec) && SameView(cfg, cl, rec, Go(cfg, c, cl), rec)
    ensures Go(cfg, c, cl).phase == cl.phase && !Go(cfg, c, cl).cur.Got?
  {
  }

  /** What the client waits for is the first packet in its queue, and the data it checks is as it should be. */
  lemma RecvKeeps(cfg: Setup, c: nat, cl: Client, rec: Record)
    requires Ok(cfg, c, cl, rec) && CanRecv(cl)
    ensures var cl' := Recv(cfg, c, cl);
            && Ok(cfg, c, cl', rec) && SameView(cfg, cl, rec, cl', rec) && cl'.phase == cl.phase
            && cl.cur.Got? && (cl'.cur == cl.cur || (cl'.cur == Nothing && !Live(rec)))
    ensures cl.pc == WaitData ==> cl.i < cfg.Rounds()
    ensures DataAccepted(cfg, c, cl) <==>
            (cl.pc == WaitData && cfg.validate && !cfg.write ==> cfg.Stored(c, cl.i) == cfg.Fill(c))
  {
    hide Match;
    FirstMatches(cl.toClient, Awaited(cl));
    assert Without(cl.toClient, Awaited(cl)) == cl.toClient[1..];
  }

  lemma CrossKeeps(cfg: Setup, c: nat, cl: Client, rec: Record)
    requires Ok(cfg, c, cl, rec) && cl.pc == AtBarrier
    ensures var cl' := Cross(cfg, cl);
            && Ok(cfg, c, cl', rec) && SameView(cfg, cl, rec, cl', rec) && !cl'.cur.Got?
            && cl'.phase == Next(cfg, cl.phase) && Order(cl.phase) < Order(cl'.phase)
  {
  }

  // ---------- the listener ----------

  lemma ListenKeeps(cfg: Setup, c: nat, cl: Client, rec: Record, addr: nat, id: nat)
    requires Ok(cfg, c, cl, rec) && Arrived(cl.toServer, TAG_REQUEST) && 1000000 <= id
    ensures var packet := Content(cl.toServer, TAG_REQUEST);
            var cl' := Listened(cl, addr);
            match packet
            case Ask(msg) =>
              var rec' := NewRecord(id, c, msg);
              cl.cur == Sent && Ok(cfg, c, cl', rec') && SameView(cfg, cl, rec, cl', rec')
            case SignOff =>
              && cl.cur == Nothing && Ok(cfg, c, cl', rec) && !SignedOff(cl) && SignedOff(cl')
              && SameOpen(cl, rec, cl', rec) && SameWrites(cfg, cl, rec, cl', rec)
            case _ => false
  {
    assert Match(cl.toServer, TAG_REQUEST) == 0;
    assert Without(cl.toServer, TAG_REQUEST) == cl.toServer[1..];
  }

  // ---------- steps of the forwarder ----------

  /** Progress that neither the client nor the files can see. */
  predicate Onward(rec: Record, rec': Record) {
    && rec' == rec.(stage := rec'.stage, thread := rec'.thread)
    && match rec.stage
       case Incoming => rec'.stage.Held?
       case Held => rec.req.msg.op != OPEN && rec.req.msg.op != CLOSE && rec'.stage.Pooled?
       case Pooled(_) => rec'.stage.Begun?
       case IdSent | Received => rec'.stage.Registered?
       case Registered => rec'.stage.Scheduled?
       case Scheduled => rec'.stage.Released?
       case _ => false
  }

  lemma OnwardKeeps(cfg: Setup, c: nat, cl: Client, rec: Record, rec': Record)
    requires Ok(cfg, c, cl, rec) && cl.cur.Got? && Onward(rec, rec')
    ensures Ok(cfg, c, cl, rec') && SameView(cfg, cl, rec, cl, rec')
    ensures Live(rec) && Live(rec')
  {
  }

  lemma OpenKeeps(cfg: Setup, c: nat, cl: Client, rec: Record, fh: int)
    requires Ok(cfg, c, cl, rec) && cl.cur.Got? && rec.stage == Held && rec.req.msg.op == OPEN
    ensures var rec' := rec.(stage := Opened(fh));
            && Ok(cfg, c, cl, rec') && !HasOpen(cl, rec) && HasOpen(cl, rec') && Handle(cl, rec') == fh
            && !SignedOff(cl) && SameWrites(cfg, cl, rec, cl, rec')
  {
  }

  lemma CloseKeeps(cfg: Setup, c: nat, cl: Client, rec: Record)
    requires Ok(cfg, c, cl, rec) && cl.cur.Got? && rec.stage == Held && rec.req.msg.op == CLOSE
    ensures var rec' := rec.(stage := Closed);
            && Ok(cfg, c, cl, rec') && HasOpen(cl, rec) && !HasOpen(cl, rec')
            && !SignedOff(cl) && SameWrites(cfg, cl, rec, cl, rec')
  {
  }

  lemma HandleSentKeeps(cfg: Setup, c: nat, cl: Client, rec: Record)
    requires Ok(cfg, c, cl, rec) && cl.cur.Got? && rec.stage.Opened?
    ensures var cl' := Post(cl, Packet(TAG_HANDLE, Num(rec.stage.fh)));
            Ok(cfg, c, cl', Answer(rec)) && SameView(cfg, cl, rec, cl', Answer(rec))
  {
  }

  lemma CloseAckedKeeps(cfg: Setup, c: nat, cl: Client, rec: Record, ack: int)
    requires Ok(cfg, c, cl, rec) && cl.cur.Got? && rec.stage.Closed?
    ensures var cl' := Post(cl, Packet(TAG_ACK, Num(ack)));
            Ok(cfg, c, cl', Answer(rec)) && SameView(cfg, cl, rec, cl', Answer(rec))
  {
  }

  lemma StartKeeps(cfg: Setup, c: nat, cl: Client, rec: Record)
    requires Ok(cfg, c, cl, rec) && cl.cur.Got? && rec.stage.Begun?
    ensures var cl' := Post(cl, IdPacket(rec));
            Ok(cfg, c, cl', Started(rec)) && SameView(cfg, cl, rec, cl', Started(rec))
  {
  }

  /** The client's buffer has the size that the forwarder asked for. */
  lemma BufferKeeps(cfg: Setup, c: nat, cl: Client, rec: Record)
    requires Ok(cfg, c, cl, rec) && cl.cur.Got? && rec.stage.AwaitBuffer? && Arrived(cl.toServer, rec.req.id)
    ensures var data := BytesIn(Content(cl.toServer, rec.req.id));
            var cl' := cl.(toServer := Without(cl.toServer, rec.req.id));
            var rec' := rec.(buffer := data, stage := Received);
            |data| == rec.req.msg.size && Ok(cfg, c, cl', rec') && SameView(cfg, cl, rec, cl', rec')
  {
    assert Match(cl.toServer, rec.req.id) == 0;
    assert Without(cl.toServer, rec.req.id) == cl.toServer[1..];
  }

  lemma PerformKeeps(cfg: Setup, c: nat, cl: Client, rec: Record, data: seq<char>)
    requires Ok(cfg, c, cl, rec) && cl.cur.Got? && rec.stage.Released?
    requires rec.req.msg.op == READ ==> cl.i < cfg.Rounds() && Good(cfg, c, cl.i, data)
    requires rec.req.msg.op != READ ==> data == rec.buffer
    ensures var rec' := rec.(buffer := data, stage := Performed(rec.stage.k));
            && Ok(cfg, c, cl, rec') && SameOpen(cl, rec, cl, rec') && HasOpen(cl, rec)
            && Handle(cl, rec) == rec.req.msg.handle
            && !SignedOff(cl) && Looping(cl.phase) && cl.i < cfg.Rounds()
            && forall x: nat | x < cfg.Rounds() ::
                 Wrote(cfg, cl, rec', x) <==> Wrote(cfg, cl, rec, x) || (rec.req.msg.op == WRITE && x == cl.i)
  {
  }

  lemma ReplyKeeps(cfg: Setup, c: nat, cl: Client, rec: Record)
    requires Ok(cfg, c, cl, rec) && cl.cur.Got? && rec.stage.Performed?
    ensures Ok(cfg, c, Post(cl, Reply(rec.req.msg.op, rec)), Answer(rec))
    ensures SameView(cfg, cl, rec, Post(cl, Reply(rec.req.msg.op, rec)), Answer(rec))
  {
  }
}
