/**
 The conversation of one client with its forwarder: the client's program, the
 messages in flight between the two, and the forwarder's record of the client's
 request with the point its processing has reached.

 Clients are numbered by their rank in the clients' communicator. A packet is
 received by its tag, the oldest packet with that tag first.
 */
module Protocol {
  import opened Forge
  import opened Offsets

  /** The contents of all files, byte by byte. */
  type Files = (File, int) -> char

  function WriteAt(files: Files, file: File, offset: int, data: seq<char>): Files {
    (g: File, x: int) => if g == file && offset <= x < offset + |data| then data[x - offset] else files(g, x)
  }

  function ReadAt(files: Files, file: File, offset: int, size: nat): seq<char> {
    seq(size, p requires 0 <= p < size => files(file, offset + p))
  }

  /** Reading gives the bytes in order; what was written is read back, and nothing else has changed. */
  lemma ReadsBack(files: Files, file: File, offset: int, data: seq<char>, g: File, o: int, n: nat)
    ensures var read := ReadAt(files, g, o, n); |read| == n && forall b :: 0 <= b < n ==> read[b] == files(g, o + b)
    ensures ReadAt(WriteAt(files, file, offset, data), file, offset, |data|) == data
    ensures g != file || o + n <= offset || offset + |data| <= o ==>
              ReadAt(WriteAt(files, file, offset, data), g, o, n) == ReadAt(files, g, o, n)
  {
  }

  /** The set-up of a run, with what the files hold before it. */
  datatype Config = Config(
    worldSize: nat, forwarders: nat, handlers: nat, workers: nat, write: bool, read: bool,
    layout: Layout, totalSize: nat, requestSize: nat, validate: bool, before: Files)
  {
    /** What the set-up checks leave, and a request size that the program can divide by. */
    predicate Valid() {
      && ValidSetup(worldSize, forwarders) && (write || read) && 1 <= requestSize
      && handlers <= MAX_THREADS && workers <= MAX_THREADS
    }

    /** Every forwarder has a handler, and a pool thread if there is anything to read or write. */
    predicate Manned()
      requires Valid()
    {
      1 <= handlers && (1 <= workers || Rounds() == 0)
    }

    function Clients(): nat
      requires Valid()
    {
      ThresholdIsPositive(worldSize, forwarders);
      worldSize - forwarders
    }

    function Rounds(): nat
      requires Valid()
    {
      ThresholdIsPositive(worldSize, forwarders);
      Iterations(totalSize, worldSize - forwarders, requestSize)
    }

    function Home(c: nat): nat
      requires Valid() && c < Clients()
    {
      ForwarderOf(c + forwarders, worldSize, forwarders)
    }

    function Threshold(): nat
      requires Valid()
    {
      ShutdownThreshold(worldSize, forwarders)
    }

    /** The offset of the client's i-th request. */
    function Place(c: nat, i: nat): int
      requires Valid() && i < Rounds()
    {
      Offset(layout, Clients(), Rounds(), requestSize, c, i)
    }

    function FileFor(c: nat): File {
      if layout == Individual then FileOf(c) else SharedFile
    }

    /** What the range of the client's i-th request holds before the run. */
    function Stored(c: nat, i: nat): seq<char>
      requires Valid() && i < Rounds()
    {
      ReadAt(before, FileFor(c), Place(c, i), requestSize)
    }

    function Letter(c: nat): char {
      ('a' as int + c % 25) as char
    }

    /** The buffer that a client writes. */
    function Fill(c: nat): seq<char> {
      seq(requestSize, _ => Letter(c))
    }
  }

  type Setup = c: Config | c.Valid() witness
    Config(2, 1, 1, 1, true, true, Strided, 0, 1, true, (f: File, x: int) => 'a')

  // ---------- what is exchanged ----------

  datatype Payload = Ask(msg: Message) | SignOff | Num(n: int) | Bytes(data: seq<char>)

  datatype Packet = Packet(tag: int, body: Payload)

  /** The position of the oldest packet with a tag; the length if there is none. */
  function Match(q: seq<Packet>, tag: int): (k: nat)
    ensures k <= |q| && (k < |q| ==> q[k].tag == tag)
    ensures forall i :: 0 <= i < k ==> q[i].tag != tag
  {
    if q == [] || q[0].tag == tag then 0 else 1 + Match(q[1..], tag)
  }

  predicate Arrived(q: seq<Packet>, tag: int) {
    Match(q, tag) < |q|
  }

  function Content(q: seq<Packet>, tag: int): Payload
    requires Arrived(q, tag)
  {
    q[Match(q, tag)].body
  }

  function Without(q: seq<Packet>, tag: int): seq<Packet>
    requires Arrived(q, tag)
  {
    q[..Match(q, tag)] + q[Match(q, tag) + 1..]
  }

  function NumIn(b: Payload): int {
    if b.Num? then b.n else -1
  }

  function BytesIn(b: Payload): seq<char> {
    if b.Bytes? then b.data else []
  }

  // ---------- the client ----------

  /** The client's program, cut at its barriers. */
  datatype Phase = WriteOpen | Writing | WriteClose | ReadOpen | Reading | ReadClose | SigningOff | Done

  datatype Pc = Ready | WaitHandle | WaitId | WaitAck | WaitData | WaitClose | AtBarrier

  /** Where the client's request is: there is none, it is on its way, or it is the forwarder's record at an address. */
  datatype Cur = Nothing | Sent | Got(addr: nat)

  /** `cur` is history: no step reads it. */
  datatype Client = Client(
    phase: Phase, i: nat, pc: Pc, fh: int, requestId: int,
    toServer: seq<Packet>, toClient: seq<Packet>, cur: Cur)

  function Order(p: Phase): nat {
    match p
    case WriteOpen => 0
    case Writing => 1
    case WriteClose => 2
    case ReadOpen => 3
    case Reading => 4
    case ReadClose => 5
    case SigningOff => 6
    case Done => 7
  }

  function Next(cfg: Setup, p: Phase): Phase {
    match p
    case WriteOpen => Writing
    case Writing => WriteClose
    case WriteClose => if cfg.read then ReadOpen else SigningOff
    case ReadOpen => Reading
    case Reading => ReadClose
    case ReadClose => SigningOff
    case _ => Done
  }

  function NewClient(cfg: Setup): Client {
    Client(if cfg.write then WriteOpen else ReadOpen, 0, Ready, -1, -1, [], [], Nothing)
  }

  predicate Looping(p: Phase) {
    p.Writing? || p.Reading?
  }

  /** The request the client sends at this point of its program. */
  function AskFor(cfg: Setup, c: nat, cl: Client): Message
    requires Looping(cl.phase) ==> cl.i < cfg.Rounds()
  {
    if Looping(cl.phase) then
      Message(if cl.phase == Writing then WRITE else READ, cfg.FileFor(c), cl.fh,
              cfg.Place(c, cl.i), cfg.requestSize)
    else
      Message(if cl.phase == WriteOpen || cl.phase == ReadOpen then OPEN else CLOSE, cfg.FileFor(c), -1, 0, 1)
  }

  function Send(cfg: Setup, c: nat, cl: Client, pc: Pc): Client
    requires Looping(cl.phase) ==> cl.i < cfg.Rounds()
  {
    cl.(toServer := cl.toServer + [Packet(TAG_REQUEST, Ask(AskFor(cfg, c, cl)))], pc := pc, cur := Sent)
  }

  /** The client issues its next request, leaves its loop, or signs off. */
  function Go(cfg: Setup, c: nat, cl: Client): Client
    requires cl.pc == Ready
  {
    match cl.phase
    case SigningOff => cl.(toServer := cl.toServer + [Packet(TAG_REQUEST, SignOff)], pc := AtBarrier)
    case Writing | Reading => if cl.i < cfg.Rounds() then Send(cfg, c, cl, WaitId) else cl.(pc := AtBarrier)
    case WriteOpen | ReadOpen => Send(cfg, c, cl, WaitHandle)
    case WriteClose | ReadClose => Send(cfg, c, cl, WaitClose)
    case Done => cl
  }

  /** The tag the client waits for. */
  function Awaited(cl: Client): int {
    match cl.pc
    case WaitHandle => TAG_HANDLE
    case WaitData => cl.requestId
    case _ => TAG_ACK
  }

  predicate CanRecv(cl: Client) {
    cl.pc != Ready && cl.pc != AtBarrier && Arrived(cl.toClient, Awaited(cl))
  }

  /** The client receives what it waits for and goes on to its next blocking point. */
  function Recv(cfg: Setup, c: nat, cl: Client): Client
    requires CanRecv(cl)
  {
    var body := Content(cl.toClient, Awaited(cl));
    var cl := cl.(toClient := Without(cl.toClient, Awaited(cl)));
    match cl.pc
    case WaitId =>
      var id := NumIn(body);
      if cl.phase == Writing then
        cl.(requestId := id, toServer := cl.toServer + [Packet(id, Bytes(cfg.Fill(c)))], pc := WaitAck)
      else
        cl.(requestId := id, pc := WaitData)
    case WaitAck | WaitData => cl.(i := cl.i + 1, pc := Ready, cur := Nothing)
    case _ => cl.(fh := NumIn(body), pc := AtBarrier, cur := Nothing)
  }

  /** What the client checks of received data: its length always, its contents if validation is on. */
  predicate DataAccepted(cfg: Setup, c: nat, cl: Client)
    requires CanRecv(cl)
  {
    cl.pc == WaitData ==>
      var data := BytesIn(Content(cl.toClient, Awaited(cl)));
      |data| == cfg.requestSize && (cfg.validate ==> data == cfg.Fill(c))
  }

  function Cross(cfg: Setup, cl: Client): Client {
    cl.(phase := Next(cfg, cl.phase), i := 0, pc := Ready)
  }

  // ---------- the forwarder's record of a request ----------

  /**
   How far the forwarder has come with a request. Up to Registered this is the program
   counter of the one thread that works on it. From then on it is history: the
   position of the request in the order of release tells it apart.
   */
  datatype Stage =
    | Incoming           // in the queue between listener and handlers
    | Held               // taken by a handler
    | Opened(fh: int)    // the handle is to be sent
    | Closed             // the acknowledgement of a close is to be sent
    | Pooled(k: nat)     // the pool's job number k
    | Begun              // taken by a pool thread, to be given a buffer
    | IdSent             // a read, its identifier sent
    | AwaitBuffer        // a write, its identifier sent
    | Received           // a write with its buffer filled
    | Registered         // in the table of requests
    | Scheduled          // given to the scheduler
    | Released(k: nat)   // appended to the ready queue as number k
    | Performed(k: nat)  // read or written
    | Finished           // answered

  /**
   The thread is the handler or the pool thread that works on the request; `answers` is history: how often it was
   given its final answer.
   */
  datatype Record = Record(req: Request, buffer: seq<char>, stage: Stage, thread: nat, answers: nat)

  function NewRecord(id: nat, rank: nat, msg: Message): Record {
    Record(Request(id, rank, msg), [], Incoming, 0, 0)
  }

  const NO_RECORD := Record(Request(0, 0, Message(OPEN, SharedFile, 0, 0, 0)), [], Finished, 0, 0)

  predicate Live(rec: Record) {
    !rec.stage.Finished?
  }

  /** From registration to answer. */
  predicate InTable(rec: Record) {
    rec.stage.Registered? || rec.stage.Scheduled? || rec.stage.Released? || rec.stage.Performed?
  }

  /** A handler works on it. */
  predicate AtHandler(rec: Record) {
    rec.stage.Held? || rec.stage.Opened? || rec.stage.Closed?
  }

  /** A pool thread works on it. */
  predicate AtWorker(rec: Record) {
    rec.stage.Begun? || rec.stage.IdSent? || rec.stage.AwaitBuffer? || rec.stage.Received? || rec.stage.Registered?
  }

  predicate Early(rec: Record) {
    rec.stage.Incoming? || rec.stage.Held?
  }

  // ---------- the invariant of a conversation ----------

  /** What a client must find in round i: what it wrote, or what was there if the run writes nothing. */
  predicate Good(cfg: Setup, c: nat, i: nat, data: seq<char>)
    requires i < cfg.Rounds()
  {
    data == if cfg.write then cfg.Fill(c) else cfg.Stored(c, i)
  }

  /** Program points that occur. */
  predicate Shape(cfg: Setup, cl: Client) {
    && (Order(cl.phase) <= 2 ==> cfg.write)
    && (3 <= Order(cl.phase) <= 5 ==> cfg.read)
    && cl.i <= cfg.Rounds()
    && (cl.pc == WaitHandle ==> cl.phase == WriteOpen || cl.phase == ReadOpen)
    && (cl.pc == WaitId ==> Looping(cl.phase))
    && (cl.pc == WaitAck ==> cl.phase == Writing)
    && (cl.pc == WaitData ==> cl.phase == Reading)
    && (cl.pc == WaitId || cl.pc == WaitAck || cl.pc == WaitData ==> cl.i < cfg.Rounds())
    && (cl.pc == WaitClose ==> cl.phase == WriteClose || cl.phase == ReadClose)
    && (Looping(cl.phase) && cl.pc == AtBarrier ==> cl.i == cfg.Rounds())
    && (cl.phase == Done ==> cl.pc == Ready)
    && (cl.cur == Nothing <==> cl.pc == Ready || cl.pc == AtBarrier)
  }

  /** Nothing is under way, except that a signing-off may not have been received yet. */
  predicate Quiet(cl: Client) {
    && cl.toClient == []
    && (cl.toServer == []
        || (cl.toServer == [Packet(TAG_REQUEST, SignOff)] && Order(cl.phase) >= 6
          && (cl.phase == SigningOff ==> cl.pc == AtBarrier)))
  }

  predicate InMail(cfg: Setup, c: nat, cl: Client)
    requires Looping(cl.phase) ==> cl.i < cfg.Rounds()
  {
    && (cl.pc == WaitHandle || cl.pc == WaitId || cl.pc == WaitClose)
    && cl.toServer == [Packet(TAG_REQUEST, Ask(AskFor(cfg, c, cl)))]
    && cl.toClient == []
  }

  predicate TalkOpen(cl: Client, rec: Record) {
    && cl.toServer == []
    && (Early(rec) || rec.stage.Opened? ==> cl.toClient == [])
    && (rec.stage.Finished? ==> |cl.toClient| == 1 && cl.toClient[0].tag == TAG_HANDLE && cl.toClient[0].body.Num?)
    && (Early(rec) || rec.stage.Opened? || rec.stage.Finished?)
  }

  predicate TalkClose(cl: Client, rec: Record) {
    && cl.toServer == []
    && (Early(rec) || rec.stage.Closed? ==> cl.toClient == [])
    && (rec.stage.Finished? ==> |cl.toClient| == 1 && cl.toClient[0].tag == TAG_ACK && cl.toClient[0].body.Num?)
    && (Early(rec) || rec.stage.Closed? || rec.stage.Finished?)
  }

  function IdPacket(rec: Record): Packet {
    Packet(TAG_ACK, Num(rec.req.id))
  }

  /** The client has not yet received the identifier. */
  predicate TalkId(cfg: Setup, c: nat, cl: Client, rec: Record)
    requires cl.i < cfg.Rounds()
  {
    && cl.toServer == []
    && (if Early(rec) || rec.stage.Pooled? || rec.stage.Begun? then cl.toClient == []
        else if cl.phase == Writing then rec.stage.AwaitBuffer? && cl.toClient == [IdPacket(rec)]
        else if rec.stage.Finished? then
          && |cl.toClient| == 2 && cl.toClient[0] == IdPacket(rec)
          && cl.toClient[1].tag == rec.req.id && cl.toClient[1].body.Bytes?
          && Good(cfg, c, cl.i, cl.toClient[1].body.data)
        else (rec.stage.IdSent? || InTable(rec)) && cl.toClient == [IdPacket(rec)])
  }

  /** The client has sent its buffer. */
  predicate TalkAck(cfg: Setup, c: nat, cl: Client, rec: Record) {
    && cl.requestId == rec.req.id
    && (if rec.stage.AwaitBuffer? then cl.toServer == [Packet(rec.req.id, Bytes(cfg.Fill(c)))] && cl.toClient == []
        else
          && cl.toServer == []
          && (if rec.stage.Finished? then cl.toClient == [Packet(TAG_ACK, Num(1))]
              else (rec.stage.Received? || InTable(rec)) && cl.toClient == [] && rec.buffer == cfg.Fill(c)))
  }

  /** The client waits for the data it asked for. */
  predicate TalkData(cfg: Setup, c: nat, cl: Client, rec: Record)
    requires cl.i < cfg.Rounds()
  {
    && cl.requestId == rec.req.id
    && cl.toServer == []
    && (if rec.stage.Finished? then
          |cl.toClient| == 1 && cl.toClient[0].tag == rec.req.id && cl.toClient[0].body.Bytes?
            && Good(cfg, c, cl.i, cl.toClient[0].body.data)
        else (rec.stage.IdSent? || InTable(rec)) && cl.toClient == [])
  }

  predicate Talk(cfg: Setup, c: nat, cl: Client, rec: Record)
    requires Looping(cl.phase) ==> cl.i < cfg.Rounds()
  {
    && rec.req.rank == c && rec.req.msg == AskFor(cfg, c, cl) && 1000000 <= rec.req.id
    && (rec.stage.Performed? && rec.req.msg.op == READ ==> Looping(cl.phase) && Good(cfg, c, cl.i, rec.buffer))
    && match cl.pc
       case WaitHandle => TalkOpen(cl, rec)
       case WaitClose => TalkClose(cl, rec)
       case WaitId => Looping(cl.phase) && TalkId(cfg, c, cl, rec)
       case WaitAck => TalkAck(cfg, c, cl, rec)
       case WaitData => Looping(cl.phase) && TalkData(cfg, c, cl, rec)
       case _ => false
  }

  /** A client with the record of its request, if the forwarder has one. */
  predicate Ok(cfg: Setup, c: nat, cl: Client, rec: Record) {
    && Shape(cfg, cl)
    && match cl.cur
       case Nothing => Quiet(cl)
       case Sent => InMail(cfg, c, cl)
       case Got(_) => Talk(cfg, c, cl, rec)
  }

  // ---------- what the forwarder does to a conversation ----------

  /** The listener receives the client's request and makes a record of it. */
  function Listened(cl: Client, addr: nat): Client
    requires Arrived(cl.toServer, TAG_REQUEST)
  {
    cl.(toServer := Without(cl.toServer, TAG_REQUEST),
        cur := if Content(cl.toServer, TAG_REQUEST).Ask? then Got(addr) else cl.cur)
  }

  function Post(cl: Client, p: Packet): Client {
    cl.(toClient := cl.toClient + [p])
  }

  /** The final answer. */
  function Answer(rec: Record): Record {
    rec.(stage := Finished, answers := rec.answers + 1)
  }

  /** A pooled request gets its buffer, and its client is told the identifier. */
  function Started(rec: Record): Record {
    rec.(buffer := seq(rec.req.msg.size, _ => 0 as char),
         stage := if rec.req.msg.op == READ then IdSent else AwaitBuffer)
  }

  /** The reply to a request of a performed batch: the data of a read, an acknowledgement of a write. */
  function Reply(op: Operation, rec: Record): Packet {
    if op == READ then Packet(rec.req.id, Bytes(rec.buffer)) else Packet(TAG_ACK, Num(1))
  }
}
