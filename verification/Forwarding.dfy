/**
 One forwarder: its records of requests, the queue between listener and handlers,
 the table of pending requests, the scheduler's set, the ready queue, the dispatcher
 and its batches, and the table of open files.

 A queue is kept as the sequence of all that was ever appended to it, with the number
 of those taken off. A record's address is its number in order of arrival; the list
 of incoming requests holds the records from `taken` on.
 */
module Forwarding {
  import opened Forge
  import opened Protocol

  const FIRST_ID := 1000000
  const LAST_ID := 9000000
  const CYCLE := 8000001

  /** What the dispatcher copies of a record: the request and the address of its buffer. */
  datatype Copy = Copy(addr: nat, req: Request)

  /** Where the work on a batch is: the pool's job number k, with a pool thread, or done. */
  datatype Progress = Queued(k: nat) | On(worker: nat) | Over

  /**
   What the dispatcher saw when it ended a batch: that it was full, an empty queue after so many appended, or a
   head that did not fit.
   */
  datatype Ending = Full | NoneLeft(appended: nat) | Misfit(head: Copy)

  /**
   A batch that begins with number `start` of the ready queue. Once all of it is performed,
   its requests are answered. The ending is history.
   */
  datatype Batch = Batch(start: nat, items: seq<Copy>, ending: Ending, performed: nat, replied: nat, progress: Progress)

  datatype Dispatching = Idle | Taken(id: nat) | Found(first: Copy)

  datatype OpenFile = OpenFile(fh: int, references: int)

  /** What a handler or a pool thread is doing. */
  datatype Duty = Free | OnRequest(addr: nat) | OnBatch(j: nat)

  /** The jobs of the pool: to begin a read or a write, to dispatch a batch, to answer it. */
  datatype Job = HandleJob(addr: nat) | DispatchJob(j: nat) | CallbackJob(j: nat)

  datatype Forwarder = Forwarder(
    globalId: nat,
    records: seq<Record>, taken: nat,
    handlers: seq<Duty>,
    jobs: seq<Job>, pulled: nat,
    workers: seq<Duty>,
    requests: map<nat, nat>,
    agios: set<nat>,
    ready: seq<nat>, popped: nat,
    dispatcher: Dispatching,
    batches: seq<Batch>,
    handles: map<File, OpenFile>,
    descriptors: map<int, File>,
    signOffs: nat, stopped: bool)

  function NewForwarder(handlers: nat, workers: nat): Forwarder {
    Forwarder(FIRST_ID, [], 0, seq(handlers, _ => Free), [], 0, seq(workers, _ => Free),
              map[], {}, [], 0, Idle, [], map[], map[], 0, false)
  }

  // ---------- steps ----------

  /** The next identifier. Identifiers wrap around. */
  function NextId(globalId: nat): nat {
    if globalId + 1 > LAST_ID then FIRST_ID else globalId + 1
  }

  function Accept(fw: Forwarder, rank: nat, msg: Message): Forwarder {
    var id := NextId(fw.globalId);
    fw.(globalId := id, records := fw.records + [NewRecord(id, rank, msg)])
  }

  /** A client has signed off; the last one stops the forwarder. */
  function CountSignOff(fw: Forwarder, threshold: nat): Forwarder {
    fw.(signOffs := fw.signOffs + 1, stopped := fw.stopped || fw.signOffs + 1 == threshold)
  }

  function SetRecord(fw: Forwarder, a: nat, rec: Record): Forwarder
    requires a < |fw.records|
  {
    fw.(records := fw.records[a := rec])
  }

  function SetStage(fw: Forwarder, a: nat, stage: Stage): Forwarder
    requires a < |fw.records|
  {
    SetRecord(fw, a, fw.records[a].(stage := stage))
  }

  /** A handler takes the oldest incoming request. */
  function Take(fw: Forwarder, h: nat): Forwarder
    requires fw.taken < |fw.records| && h < |fw.handlers|
  {
    SetRecord(fw, fw.taken, fw.records[fw.taken].(stage := Held, thread := h))
    .(taken := fw.taken + 1, handlers := fw.handlers[h := OnRequest(fw.taken)])
  }

  /** The handler that works on a request is done with it. */
  function FreeHandler(fw: Forwarder, a: nat): Forwarder
    requires a < |fw.records|
  {
    var h := fw.records[a].thread;
    if h < |fw.handlers| then fw.(handlers := fw.handlers[h := Free]) else fw
  }

  /** The pool thread that works on a request is done with it. */
  function FreeWorker(fw: Forwarder, a: nat): Forwarder
    requires a < |fw.records|
  {
    var w := fw.records[a].thread;
    if w < |fw.workers| then fw.(workers := fw.workers[w := Free]) else fw
  }

  /** A handler passes a read or a write to the pool. */
  function ToPool(fw: Forwarder, a: nat): Forwarder
    requires a < |fw.records|
  {
    FreeHandler(SetStage(fw, a, Pooled(|fw.jobs|)).(jobs := fw.jobs + [HandleJob(a)]), a)
  }

  /** A handler answers an open or a close. */
  function Conclude(fw: Forwarder, a: nat): Forwarder
    requires a < |fw.records|
  {
    FreeHandler(SetRecord(fw, a, Answer(fw.records[a])), a)
  }

  /** The oldest job of the pool can be begun by this thread. */
  predicate CanPull(fw: Forwarder, w: nat) {
    && w < |fw.workers| && fw.workers[w] == Free && fw.pulled < |fw.jobs|
    && match fw.jobs[fw.pulled]
       case HandleJob(a) => a < |fw.records|
       case DispatchJob(j) => j < |fw.batches|
       case CallbackJob(j) => j < |fw.batches|
  }

  function Pull(fw: Forwarder, w: nat): Forwarder
    requires CanPull(fw, w)
  {
    var fw1 := fw.(pulled := fw.pulled + 1);
    match fw.jobs[fw.pulled]
    case HandleJob(a) =>
      SetRecord(fw1, a, fw.records[a].(stage := Begun, thread := w)).(workers := fw.workers[w := OnRequest(a)])
    case DispatchJob(j) => BeginBatch(fw1, j, w)
    case CallbackJob(j) => BeginBatch(fw1, j, w)
  }

  function BeginBatch(fw: Forwarder, j: nat, w: nat): Forwarder
    requires j < |fw.batches| && w < |fw.workers|
  {
    fw.(batches := fw.batches[j := fw.batches[j].(progress := On(w))], workers := fw.workers[w := OnBatch(j)])
  }

  /** Counts one more user of a file; the first one has it opened under the given descriptor. */
  function Open(fw: Forwarder, file: File, fd: int): Forwarder {
    if file in fw.handles then
      var h := fw.handles[file];
      fw.(handles := fw.handles[file := OpenFile(h.fh, h.references + 1)])
    else
      fw.(handles := fw.handles[file := OpenFile(fd, 1)], descriptors := fw.descriptors[fd := file])
  }

  /** Counts one user less; the last one has the file closed and forgotten. */
  function Close(fw: Forwarder, file: File): Forwarder
    requires file in fw.handles
  {
    var h := fw.handles[file];
    if h.references - 1 == 0 then
      fw.(handles := fw.handles - {file}, descriptors := fw.descriptors - {h.fh})
    else
      fw.(handles := fw.handles[file := OpenFile(h.fh, h.references - 1)])
  }

  function Register(fw: Forwarder, a: nat): Forwarder
    requires a < |fw.records|
  {
    SetStage(fw, a, Registered).(requests := fw.requests[fw.records[a].req.id := a])
  }

  /** The request is given to the scheduler, which ends its job. */
  function Schedule(fw: Forwarder, a: nat): Forwarder
    requires a < |fw.records|
  {
    FreeWorker(SetStage(fw, a, Scheduled).(agios := fw.agios + {fw.records[a].req.id}), a)
  }

  predicate Known(fw: Forwarder, id: nat) {
    id in fw.requests && fw.requests[id] < |fw.records|
  }

  /** The scheduler hands an identifier back, and the callback appends it to the ready queue. */
  function Release(fw: Forwarder, id: nat): Forwarder {
    (if Known(fw, id) then SetStage(fw, fw.requests[id], Released(|fw.ready|)) else fw)
    .(agios := fw.agios - {id}, ready := fw.ready + [id])
  }

  function Pop(fw: Forwarder): Forwarder
    requires fw.popped < |fw.ready|
  {
    fw.(popped := fw.popped + 1, dispatcher := Taken(fw.ready[fw.popped]))
  }

  function CopyOf(fw: Forwarder, id: nat): Copy
    requires Known(fw, id)
  {
    Copy(fw.requests[id], fw.records[fw.requests[id]].req)
  }

  function Lookup(fw: Forwarder): Forwarder
    requires fw.dispatcher.Taken? && Known(fw, fw.dispatcher.id)
  {
    fw.(dispatcher := Found(CopyOf(fw, fw.dispatcher.id)))
  }

  /** The walk over the ready queue that extends a batch. It ends early at an identifier that is not in the table. */
  function Extend(fw: Forwarder, items: seq<Copy>, k: nat): (all: seq<Copy>)
    requires 1 <= |items| <= MAX_BATCH_SIZE && k <= |fw.ready|
    ensures items <= all && |all| <= MAX_BATCH_SIZE && k + |all| - |items| <= |fw.ready|
    decreases MAX_BATCH_SIZE - |items|
  {
    if |items| == MAX_BATCH_SIZE || k == |fw.ready| || !Known(fw, fw.ready[k]) then items
    else
      var next := CopyOf(fw, fw.ready[k]);
      if SameBatch(items[0].req, next.req) then Extend(fw, items + [next], k + 1) else items
  }

  function Gathered(fw: Forwarder): (items: seq<Copy>)
    requires fw.dispatcher.Found? && fw.popped <= |fw.ready|
    ensures items != [] && items[0] == fw.dispatcher.first && |items| <= MAX_BATCH_SIZE
    ensures fw.popped + |items| - 1 <= |fw.ready|
  {
    Extend(fw, [fw.dispatcher.first], fw.popped)
  }

  /** Every identifier that the walk looked up was in the table. */
  predicate GatherFinds(fw: Forwarder)
    requires fw.dispatcher.Found? && fw.popped <= |fw.ready|
  {
    var k := fw.popped + |Gathered(fw)| - 1;
    |Gathered(fw)| < MAX_BATCH_SIZE && k < |fw.ready| ==> Known(fw, fw.ready[k])
  }

  function EndingOf(fw: Forwarder): Ending
    requires fw.dispatcher.Found? && 1 <= fw.popped <= |fw.ready|
  {
    var k := fw.popped + |Gathered(fw)| - 1;
    if |Gathered(fw)| == MAX_BATCH_SIZE then Full
    else if k == |fw.ready| || !Known(fw, fw.ready[k]) then NoneLeft(|fw.ready|)
    else Misfit(CopyOf(fw, fw.ready[k]))
  }

  /** The dispatcher issues the batch: it becomes a job of the pool. */
  function Gather(fw: Forwarder): Forwarder
    requires fw.dispatcher.Found? && 1 <= fw.popped <= |fw.ready|
  {
    var items := Gathered(fw);
    fw.(popped := fw.popped + |items| - 1, dispatcher := Idle,
        batches := fw.batches + [Batch(fw.popped - 1, items, EndingOf(fw), 0, 0, Queued(|fw.jobs|))],
        jobs := fw.jobs + [DispatchJob(|fw.batches|)])
  }

  predicate CanPerform(fw: Forwarder, j: nat) {
    && j < |fw.batches| && fw.batches[j].progress.On? && fw.batches[j].progress.worker < |fw.workers|
    && fw.batches[j].performed < |fw.batches[j].items|
    && fw.batches[j].items[fw.batches[j].performed].addr < |fw.records|
  }

  function Performing(fw: Forwarder, j: nat): Copy
    requires CanPerform(fw, j)
  {
    fw.batches[j].items[fw.batches[j].performed]
  }

  /** The pool thread that works on a batch is done with it for now. */
  function LeaveBatch(fw: Forwarder, j: nat, progress: Progress): Forwarder
    requires j < |fw.batches| && fw.batches[j].progress.On? && fw.batches[j].progress.worker < |fw.workers|
  {
    fw.(workers := fw.workers[fw.batches[j].progress.worker := Free],
        batches := fw.batches[j := fw.batches[j].(progress := progress)])
  }

  /** The next request of a batch is read or written; `data` is in its buffer afterwards. */
  function PerformItem(fw: Forwarder, j: nat, data: seq<char>): Forwarder
    requires CanPerform(fw, j)
  {
    var b := fw.batches[j];
    var a := Performing(fw, j).addr;
    SetRecord(fw, a, fw.records[a].(buffer := data, stage := Performed(b.start + b.performed)))
    .(batches := fw.batches[j := b.(performed := b.performed + 1)])
  }

  /** The last request of a batch makes the callback a job of the pool. */
  function Perform(fw: Forwarder, j: nat, data: seq<char>): Forwarder
    requires CanPerform(fw, j)
  {
    var fw1 := PerformItem(fw, j, data);
    if fw1.batches[j].performed == |fw1.batches[j].items| then
      LeaveBatch(fw1, j, Queued(|fw.jobs|)).(jobs := fw.jobs + [CallbackJob(j)])
    else fw1
  }

  /** The operation of a batch is that of its first request. */
  function BatchOp(b: Batch): Operation
    requires b.items != []
  {
    b.items[0].req.msg.op
  }

  /** One request of a batch is read into its buffer, or written from it. */
  function Transfer(fw: Forwarder, files: Files, j: nat): (Forwarder, Files)
    requires CanPerform(fw, j) && Performing(fw, j).req.msg.handle in fw.descriptors
  {
    var item := Performing(fw, j);
    var msg := item.req.msg;
    var file := fw.descriptors[msg.handle];
    if BatchOp(fw.batches[j]) == READ then
      (Perform(fw, j, ReadAt(files, file, msg.offset, msg.size)), files)
    else
      var data := fw.records[item.addr].buffer;
      (Perform(fw, j, data), WriteAt(files, file, msg.offset, data))
  }

  predicate CanReply(fw: Forwarder, j: nat) {
    && j < |fw.batches| && fw.batches[j].progress.On? && fw.batches[j].progress.worker < |fw.workers|
    && fw.batches[j].performed == |fw.batches[j].items| && fw.batches[j].replied < |fw.batches[j].items|
  }

  function Replying(fw: Forwarder, j: nat): nat
    requires CanReply(fw, j)
  {
    fw.batches[j].items[fw.batches[j].replied].req.id
  }

  /** The next request of a performed batch leaves the table and is answered. */
  function CompleteItem(fw: Forwarder, j: nat): Forwarder
    requires CanReply(fw, j) && Known(fw, Replying(fw, j))
  {
    var b := fw.batches[j];
    var id := Replying(fw, j);
    var a := fw.requests[id];
    SetRecord(fw, a, Answer(fw.records[a]))
    .(requests := fw.requests - {id}, batches := fw.batches[j := b.(replied := b.replied + 1)])
  }

  /** With the last request of a batch its callback is over. */
  function Complete(fw: Forwarder, j: nat): Forwarder
    requires CanReply(fw, j) && Known(fw, Replying(fw, j))
  {
    var fw1 := CompleteItem(fw, j);
    if fw1.batches[j].replied == |fw1.batches[j].items| then LeaveBatch(fw1, j, Over) else fw1
  }

  // ---------- the invariant of the tables ----------

  /** The n-th identifier drawn. */
  function IdOf(n: nat): nat {
    FIRST_ID + n % CYCLE
  }

  /** No more than one cycle of identifiers is drawn during the life of a request. */
  predicate Window(fw: Forwarder) {
    forall a :: 0 <= a < |fw.records| && Live(fw.records[a]) ==> |fw.records| <= a + CYCLE
  }

  ghost predicate Identified(fw: Forwarder) {
    && fw.globalId == IdOf(|fw.records|)
    && (forall a: nat :: a < |fw.records| ==> fw.records[a].req.id == IdOf(a + 1))
    && Window(fw)
  }

  ghost predicate InOrder(fw: Forwarder) {
    && fw.taken <= |fw.records|
    && forall a :: 0 <= a < |fw.records| ==> (fw.records[a].stage.Incoming? <==> fw.taken <= a)
  }

  predicate Entry(fw: Forwarder, id: nat)
    requires id in fw.requests
  {
    var a := fw.requests[id];
    a < |fw.records| && fw.records[a].req.id == id && InTable(fw.records[a])
  }

  predicate HasEntry(fw: Forwarder, a: nat)
    requires a < |fw.records|
  {
    var id := fw.records[a].req.id;
    InTable(fw.records[a]) ==> id in fw.requests && fw.requests[id] == a
  }

  /** The table of requests holds exactly those from registration to answer. */
  ghost predicate Registry(fw: Forwarder) {
    && (forall id :: id in fw.requests ==> Entry(fw, id))
    && (forall a :: 0 <= a < |fw.records| ==> HasEntry(fw, a))
  }

  /** The request under this identifier is at this stage. */
  predicate At(fw: Forwarder, id: nat, stage: Stage) {
    Known(fw, id) && fw.records[fw.requests[id]].stage == stage
  }

  ghost predicate Scheduling(fw: Forwarder) {
    && (forall id :: id in fw.agios ==> At(fw, id, Scheduled))
    && (forall a :: 0 <= a < |fw.records| && fw.records[a].stage.Scheduled? ==> fw.records[a].req.id in fw.agios)
  }

  /** Where the batch with this number begins in the ready queue. */
  function BatchStart(batches: seq<Batch>, j: nat): nat
    requires j <= |batches|
  {
    if j == 0 then 0 else batches[j - 1].start + |batches[j - 1].items|
  }

  /** How much of the ready queue is in batches. */
  function Issued(fw: Forwarder): nat {
    BatchStart(fw.batches, |fw.batches|)
  }

  predicate ReleasedAt(fw: Forwarder, rec: Record) {
    && (rec.stage.Released? ==> rec.stage.k < |fw.ready| && fw.ready[rec.stage.k] == rec.req.id)
    && (rec.stage.Performed? ==>
          rec.stage.k < Issued(fw) && rec.stage.k < |fw.ready| && fw.ready[rec.stage.k] == rec.req.id)
  }

  /** Number k of the ready queue is waiting there or with the dispatcher. */
  predicate Waits(fw: Forwarder, k: nat)
    requires k < |fw.ready|
  {
    At(fw, fw.ready[k], Released(k))
  }

  ghost predicate ReadyQueue(fw: Forwarder) {
    && Issued(fw) <= |fw.ready|
    && (forall a :: 0 <= a < |fw.records| ==> ReleasedAt(fw, fw.records[a]))
    && (forall k :: Issued(fw) <= k < |fw.ready| ==> Waits(fw, k))
    && match fw.dispatcher
       case Idle => fw.popped == Issued(fw)
       case Taken(id) => fw.popped == Issued(fw) + 1 <= |fw.ready| && id == fw.ready[fw.popped - 1]
       case Found(first) =>
         && fw.popped == Issued(fw) + 1 <= |fw.ready|
         && Known(fw, fw.ready[fw.popped - 1]) && first == CopyOf(fw, fw.ready[fw.popped - 1])
  }

  predicate ItemOk(fw: Forwarder, b: Batch, i: nat)
    requires i < |b.items|
  {
    var item := b.items[i];
    && b.start + i < |fw.ready| && fw.ready[b.start + i] == item.req.id
    && item.req.msg.op == b.items[0].req.msg.op && item.req.msg.handle == b.items[0].req.msg.handle
    && (b.replied <= i ==>
          && Known(fw, item.req.id) && CopyOf(fw, item.req.id) == item
          && fw.records[item.addr].stage == if i < b.performed then Performed(b.start + i) else Released(b.start + i))
  }

  /** A batch is full, or found the queue empty, or was followed by a request that does not fit. */
  predicate EndingOk(fw: Forwarder, start: nat, items: seq<Copy>, ending: Ending)
    requires items != []
  {
    var k := start + |items|;
    match ending
    case Full => |items| == 16
    case NoneLeft(appended) => |items| < 16 && appended == k
    case Misfit(head) =>
      && |items| < 16 && k < |fw.ready| && fw.ready[k] == head.req.id
      && head.addr < |fw.records| && fw.records[head.addr].req == head.req
      && (head.req.msg.op != items[0].req.msg.op || head.req.msg.handle != items[0].req.msg.handle)
  }

  predicate BatchOk(fw: Forwarder, j: nat)
    requires j < |fw.batches|
  {
    var b := fw.batches[j];
    && b.start == BatchStart(fw.batches, j)
    && 1 <= |b.items| <= 16
    && b.replied <= b.performed <= |b.items|
    && (b.replied > 0 ==> b.performed == |b.items|)
    && EndingOk(fw, b.start, b.items, b.ending)
    && forall i :: 0 <= i < |b.items| ==> ItemOk(fw, b, i)
  }

  ghost predicate Batched(fw: Forwarder) {
    forall j :: 0 <= j < |fw.batches| ==> BatchOk(fw, j)
  }

  /** A released request that falls into a batch has not been answered in it. */
  predicate Tracked(rec: Record, b: Batch) {
    (rec.stage.Released? || rec.stage.Performed?) && b.start <= rec.stage.k < b.start + |b.items| ==>
      b.replied <= rec.stage.k - b.start && (rec.stage.Performed? <==> rec.stage.k - b.start < b.performed)
  }

  ghost predicate AllTracked(fw: Forwarder) {
    forall a, j :: 0 <= a < |fw.records| && 0 <= j < |fw.batches| ==> Tracked(fw.records[a], fw.batches[j])
  }

  ghost predicate Core(fw: Forwarder) {
    Identified(fw) && InOrder(fw) && Registry(fw) && Scheduling(fw) && ReadyQueue(fw) && Batched(fw) && AllTracked(fw)
  }

  // ---------- the threads ----------

  /** A busy handler works on a request that says so. */
  predicate HandlerOk(fw: Forwarder, h: nat)
    requires h < |fw.handlers|
  {
    match fw.handlers[h]
    case Free => true
    case OnRequest(a) => a < |fw.records| && AtHandler(fw.records[a]) && fw.records[a].thread == h
    case OnBatch(_) => false
  }

  /** A busy pool thread works on a request or a batch that says so. */
  predicate WorkerOk(fw: Forwarder, w: nat)
    requires w < |fw.workers|
  {
    match fw.workers[w]
    case Free => true
    case OnRequest(a) => a < |fw.records| && AtWorker(fw.records[a]) && fw.records[a].thread == w
    case OnBatch(j) => j < |fw.batches| && fw.batches[j].progress == On(w)
  }

  /** A request at a thread, or in the pool's queue, is there. */
  predicate RecordManned(fw: Forwarder, a: nat)
    requires a < |fw.records|
  {
    var rec := fw.records[a];
    && (AtHandler(rec) ==> rec.thread < |fw.handlers| && fw.handlers[rec.thread] == OnRequest(a))
    && (AtWorker(rec) ==> rec.thread < |fw.workers| && fw.workers[rec.thread] == OnRequest(a))
    && (rec.stage.Pooled? ==> fw.pulled <= rec.stage.k < |fw.jobs| && fw.jobs[rec.stage.k] == HandleJob(a))
  }

  /** A batch is in the pool's queue, with a thread, or completely answered. */
  predicate BatchManned(fw: Forwarder, j: nat)
    requires j < |fw.batches|
  {
    var b := fw.batches[j];
    match b.progress
    case Queued(k) =>
      && fw.pulled <= k < |fw.jobs| && b.replied == 0 && b.items != []
      && if b.performed == 0 then fw.jobs[k] == DispatchJob(j)
         else b.performed == |b.items| && fw.jobs[k] == CallbackJob(j)
    case On(w) => w < |fw.workers| && fw.workers[w] == OnBatch(j) && b.replied < |b.items|
    case Over => b.replied == |b.items|
  }

  predicate JobOk(fw: Forwarder, k: nat)
    requires k < |fw.jobs|
  {
    match fw.jobs[k]
    case HandleJob(a) => a < |fw.records| && fw.records[a].stage == Pooled(k)
    case DispatchJob(j) => j < |fw.batches| && fw.batches[j].progress == Queued(k)
    case CallbackJob(j) => j < |fw.batches| && fw.batches[j].progress == Queued(k)
  }

  /** Threads, queued jobs, requests and batches agree on who works on what. */
  ghost predicate Staffed(fw: Forwarder) {
    && fw.pulled <= |fw.jobs|
    && (forall h :: 0 <= h < |fw.handlers| ==> HandlerOk(fw, h))
    && (forall w :: 0 <= w < |fw.workers| ==> WorkerOk(fw, w))
    && (forall a :: 0 <= a < |fw.records| ==> RecordManned(fw, a))
    && (forall j :: 0 <= j < |fw.batches| ==> BatchManned(fw, j))
    && (forall k :: fw.pulled <= k < |fw.jobs| ==> JobOk(fw, k))
  }

  ghost predicate Tables(fw: Forwarder) {
    Core(fw) && Staffed(fw)
  }
}
