/**
 The forwarder's threads as code that updates its tables: the listener, the handlers,
 the jobs of the pool and the generator of identifiers. What each does in one go is tied
 to the steps of the pipeline, through the value of the whole forwarder.
 */
module Server {
  import opened Forge
  import opened Protocol
  import opened Forwarding
  import opened ForwarderSteps

  datatype Option<T> = None | Some(value: T)

  class Process {
    var globalId: nat
    var records: seq<Record>
    var taken: nat
    var handlers: seq<Duty>
    var jobs: seq<Job>
    var pulled: nat
    var workers: seq<Duty>
    var requests: map<nat, nat>
    var agios: set<nat>
    var ready: seq<nat>
    var popped: nat
    var dispatcher: Dispatching
    var batches: seq<Batch>
    var handles: map<File, OpenFile>
    var descriptors: map<int, File>
    var signOffs: nat
    var stopped: bool

    function View(): Forwarder
      reads this
    {
      Forwarder(globalId, records, taken, handlers, jobs, pulled, workers, requests, agios, ready, popped, dispatcher,
                batches, handles, descriptors, signOffs, stopped)
    }

    /** A forwarder with its handlers and the threads of its pool. */
    constructor (handlerCount: nat, workerCount: nat)
      ensures View() == NewForwarder(handlerCount, workerCount)
    {
      globalId, records, taken, requests, agios := FIRST_ID, [], 0, map[], {};
      handlers, workers, jobs, pulled := seq(handlerCount, _ => Free), seq(workerCount, _ => Free), [], 0;
      ready, popped, dispatcher, batches := [], 0, Idle, [];
      handles, descriptors, signOffs, stopped := map[], map[], 0, false;
    }

    method GenerateIdentifier() returns (id: nat)
      modifies this`globalId
      ensures id == globalId == NextId(old(globalId))
    {
      globalId := globalId + 1;
      if globalId > LAST_ID {
        globalId := FIRST_ID;
      }
      return globalId;
    }

    /** The listener has received a message: an empty one signs a client off, any other is a request. */
    method Receive(rank: nat, message: Option<Message>, threshold: nat)
      modifies this
      ensures View() == match message
                        case None => CountSignOff(old(View()), threshold)
                        case Some(msg) => Accept(old(View()), rank, msg)
    {
      if message == None {
        signOffs := signOffs + 1;
        if threshold == signOffs {
          stopped := true;
        }
      } else {
        var id := GenerateIdentifier();
        records := records + [NewRecord(id, rank, message.value)];
      }
    }

    /** Looks the file up; opens it under the descriptor that the kernel offers if no one has it open. */
    method OpenFile(file: File, fd: int) returns (fh: int)
      modifies this`handles, this`descriptors
      ensures View() == Forwarding.Open(old(View()), file, fd)
      ensures file in handles && fh == handles[file].fh
    {
      if file !in handles {
        descriptors := descriptors[fd := file];
        handles := handles[file := Forwarding.OpenFile(fd, 1)];
      } else {
        var h := handles[file];
        handles := handles[file := Forwarding.OpenFile(h.fh, h.references + 1)];
      }
      fh := handles[file].fh;
    }

    /** Looks the file up; closes it if its last user leaves. */
    method CloseFile(file: File) returns (found: bool)
      modifies this`handles, this`descriptors
      ensures found <==> file in old(handles)
      ensures View() == if found then Forwarding.Close(old(View()), file) else old(View())
    {
      found := file in handles;
      if found {
        var h := handles[file];
        var references := h.references - 1;
        if references == 0 {
          descriptors := descriptors - {h.fh};
          handles := handles - {file};
        } else {
          handles := handles[file := Forwarding.OpenFile(h.fh, references)];
        }
      }
    }

    /**
     The state of the forwarder after handler h has dealt with the oldest incoming request, and the reply if
     there is one.
     */
    static function Handled(fw: Forwarder, h: nat, fd: int, ack: int): (Forwarder, Option<Packet>)
      requires fw.taken < |fw.records| && h < |fw.handlers|
    {
      var a := fw.taken;
      var msg := fw.records[a].req.msg;
      var fw1 := Take(fw, h);
      match msg.op
      case OPEN =>
        var fw2 := Forwarding.Open(fw1, msg.file, fd);
        (Conclude(fw2, a), Some(Packet(TAG_HANDLE, Num(fw2.handles[msg.file].fh))))
      case CLOSE =>
        if msg.file !in fw.handles then (fw1, None)
        else (Conclude(Forwarding.Close(fw1, msg.file), a), Some(Packet(TAG_ACK, Num(ack))))
      case _ => (ToPool(fw1, a), None)
    }

    /** One round of a handler. It fails only on a close that finds no entry. */
    method Handle(h: nat, fd: int, ack: int) returns (reply: Option<Packet>, ok: bool)
      requires taken < |records| && h < |handlers|
      modifies this
      ensures (View(), reply) == Handled(old(View()), h, fd, ack)
      ensures ok <==> old(records[taken].req.msg.op == CLOSE ==> records[taken].req.msg.file in handles)
    {
      hide Forwarding.Open, Forwarding.Close;
      var a := taken;
      var msg := records[a].req.msg;
      records := records[a := records[a].(stage := Held, thread := h)];
      taken, handlers := taken + 1, handlers[h := OnRequest(a)];
      assert View() == Take(old(View()), h);
      reply, ok := None, true;
      if msg.op == OPEN {
        var fh := OpenFile(msg.file, fd);
        reply := Some(Packet(TAG_HANDLE, Num(fh)));
        Finish(a);
      } else if msg.op == READ || msg.op == WRITE {
        AddWork(a);
      } else {
        ok := CloseFile(msg.file);
        if ok {
          reply := Some(Packet(TAG_ACK, Num(ack)));
          Finish(a);
        }
      }
    }

    /** The handler frees the request that it has answered and is free for the next one. */
    method Finish(a: nat)
      requires a < |records| && records[a].thread < |handlers|
      modifies this`records, this`handlers
      ensures View() == Conclude(old(View()), a)
    {
      handlers := handlers[records[a].thread := Free];
      records := records[a := Answer(records[a])];
    }

    /** The handler adds a read or a write to the pool's queue and is free for the next request. */
    method AddWork(a: nat)
      requires a < |records| && records[a].thread < |handlers|
      modifies this`records, this`handlers, this`jobs
      ensures View() == ToPool(old(View()), a)
    {
      records := records[a := records[a].(stage := Pooled(|jobs|))];
      jobs := jobs + [HandleJob(a)];
      handlers := handlers[records[a].thread := Free];
    }

    // ---------- the jobs of the pool ----------

    /** A thread of the pool takes the oldest job. */
    method PullJob(w: nat) returns (job: Job)
      requires CanPull(View(), w)
      modifies this`records, this`pulled, this`workers, this`batches
      ensures View() == Forwarding.Pull(old(View()), w) && job == old(jobs[pulled])
    {
      job := jobs[pulled];
      pulled := pulled + 1;
      match job {
        case HandleJob(a) =>
          records := records[a := records[a].(stage := Begun, thread := w)];
          workers := workers[w := OnRequest(a)];
        case DispatchJob(j) =>
          batches := batches[j := batches[j].(progress := On(w))];
          workers := workers[w := OnBatch(j)];
        case CallbackJob(j) =>
          batches := batches[j := batches[j].(progress := On(w))];
          workers := workers[w := OnBatch(j)];
      }
    }

    /** The job of a read or a write begins: a buffer is allocated and the identifier sent. */
    method StartJob(a: nat) returns (reply: Packet)
      requires a < |records|
      modifies this`records
      ensures View() == SetRecord(old(View()), a, Started(old(records[a])))
      ensures reply == IdPacket(old(records[a]))
    {
      var r := records[a];
      var buffer := seq(r.req.msg.size, _ => 0 as char);
      reply := Packet(TAG_ACK, Num(r.req.id));
      records := records[a := r.(buffer := buffer, stage := if r.req.msg.op == READ then IdSent else AwaitBuffer)];
    }

    /** The job of a write receives the client's buffer. It fails if the size is not the announced one. */
    method TakeBuffer(a: nat, data: seq<char>) returns (ok: bool)
      requires a < |records|
      modifies this`records
      ensures ok <==> |data| == old(records[a].req.msg.size)
      ensures View() == if ok then SetRecord(old(View()), a, old(records[a]).(buffer := data, stage := Received))
              else old(View())
    {
      ok := |data| == records[a].req.msg.size;
      if ok {
        records := records[a := records[a].(buffer := data, stage := Received)];
      }
    }

    /** The job ends: its request enters the table and is given to the scheduler, and its thread is free. */
    method EndJob(a: nat)
      requires a < |records|
      modifies this`records, this`requests, this`agios, this`workers
      ensures View() == Schedule(Register(old(View()), a), a)
    {
      AddRequest(a);
      GiveToScheduler(a);
    }

    method AddRequest(a: nat)
      requires a < |records|
      modifies this`records, this`requests
      ensures View() == Register(old(View()), a)
    {
      requests := requests[records[a].req.id := a];
      records := records[a := records[a].(stage := Registered)];
    }

    method GiveToScheduler(a: nat)
      requires a < |records|
      modifies this`records, this`agios, this`workers
      ensures View() == Schedule(old(View()), a)
    {
      agios := agios + {records[a].req.id};
      records := records[a := records[a].(stage := Scheduled)];
      var w := records[a].thread;
      if w < |workers| {
        workers := workers[w := Free];
      }
    }

    // ---------- batches ----------

    /** The forwarder and the files after the first n requests of a batch have been performed. */
    static ghost function Performed(fw: Forwarder, files: Files, j: nat, n: nat): (Forwarder, Files)
      requires Tables(fw) && Performable(fw, j) && n <= |fw.batches[j].items|
      ensures var r := Performed(fw, files, j, n); PerformedSoFar(fw, r.0, j, n)
      decreases n
    {
      if n == 0 then (NothingPerformed(fw, j); (fw, files))
      else
        var (fw1, files1) := Performed(fw, files, j, n - 1);
        PerformNext(fw, fw1, j, n - 1);
        TransferKeeps(fw, fw1, files1, j, n - 1);
        Transfer(fw1, files1, j)
    }

    /** A batch that a thread of the pool is about to dispatch; all its handles are open. */
    static ghost predicate Performable(fw: Forwarder, j: nat) {
      && j < |fw.batches| && fw.batches[j].progress.On? && fw.batches[j].performed == fw.batches[j].replied == 0
      && fw.batches[j].items != []
      && forall i :: 0 <= i < |fw.batches[j].items| ==> fw.batches[j].items[i].req.msg.handle in fw.descriptors
    }

    /** The batch with its first n requests performed; with the last one the callback is a job of the pool. */
    static function BatchAfter(fw: Forwarder, j: nat, n: nat): Batch
      requires j < |fw.batches|
    {
      var b := fw.batches[j];
      b.(performed := n, progress := if n == |b.items| then Queued(|fw.jobs|) else b.progress)
    }

    static ghost predicate PerformedSoFar(fw: Forwarder, fw': Forwarder, j: nat, n: nat) {
      && Tables(fw') && j < |fw.batches| == |fw'.batches|
      && fw'.batches[j] == BatchAfter(fw, j, n)
      && fw'.descriptors == fw.descriptors
      && fw'.jobs == fw.jobs + if n == |fw.batches[j].items| then [CallbackJob(j)] else []
    }

    static lemma NothingPerformed(fw: Forwarder, j: nat)
      requires Tables(fw) && Performable(fw, j)
      ensures PerformedSoFar(fw, fw, j, 0)
    {
      hide Tables;
    }

    static lemma PerformNext(fw: Forwarder, fw': Forwarder, j: nat, n: nat)
      requires Performable(fw, j) && PerformedSoFar(fw, fw', j, n) && n < |fw.batches[j].items|
      ensures CanPerform(fw', j) && Performing(fw', j) == fw.batches[j].items[n]
    {
      hide Core;
      PerformFindsIn(fw', j);
      assert BatchManned(fw', j);
    }

    static lemma TransferKeeps(fw: Forwarder, fw': Forwarder, files: Files, j: nat, n: nat)
      requires Performable(fw, j) && PerformedSoFar(fw, fw', j, n) && n < |fw.batches[j].items|
      requires CanPerform(fw', j) && Performing(fw', j) == fw.batches[j].items[n]
      ensures PerformedSoFar(fw, Transfer(fw', files, j).0, j, n + 1)
    {
      hide Tables;
      var item := Performing(fw', j);
      var data := if BatchOp(fw'.batches[j]) == READ
                  then ReadAt(files, fw'.descriptors[item.req.msg.handle], item.req.msg.offset, item.req.msg.size)
                  else fw'.records[item.addr].buffer;
      PerformOk(fw', j, data);
    }

    /** One request of a batch is read or written; after the last one the callback is added to the pool's queue. */
    method TransferNext(j: nat, files: Files) returns (files': Files)
      requires CanPerform(View(), j) && Performing(View(), j).req.msg.handle in descriptors
      modifies this`records, this`batches, this`jobs, this`workers
      ensures (View(), files') == Transfer(old(View()), files, j)
    {
      hide ReadAt, WriteAt, LeaveBatch;
      files' := files;
      var b := batches[j];
      var item := b.items[b.performed];
      var file := descriptors[item.req.msg.handle];
      var rec := records[item.addr];
      if b.items[0].req.msg.op == READ {
        rec := rec.(buffer := ReadAt(files', file, item.req.msg.offset, item.req.msg.size));
      } else {
        files' := WriteAt(files', file, item.req.msg.offset, rec.buffer);
      }
      records := records[item.addr := rec.(stage := Stage.Performed(b.start + b.performed))];
      batches := batches[j := b.(performed := b.performed + 1)];
      assert View() == PerformItem(old(View()), j, rec.buffer);
      if b.performed + 1 == |b.items| {
        Leave(j, Queued(|jobs|));
        jobs := jobs + [CallbackJob(j)];
      }
    }

    /** The thread is done with a batch for now. */
    method Leave(j: nat, progress: Progress)
      requires j < |batches| && batches[j].progress.On? && batches[j].progress.worker < |workers|
      modifies this`workers, this`batches
      ensures View() == LeaveBatch(old(View()), j, progress)
    {
      workers := workers[batches[j].progress.worker := Free];
      batches := batches[j := batches[j].(progress := progress)];
    }

    /** The dispatch of a batch: its requests are read or written one by one. */
    method DispatchBatch(j: nat, files: Files) returns (files': Files)
      requires Tables(View()) && Performable(View(), j)
      modifies this`records, this`batches, this`jobs, this`workers
      ensures (View(), files') == Performed(old(View()), files, j, old(|batches[j].items|))
      ensures PerformedSoFar(old(View()), View(), j, |batches[j].items|)
    {
      hide Tables, Transfer;
      ghost var fw := View();
      files' := files;
      NothingPerformed(fw, j);
      var i := 0;
      while i < |batches[j].items|
        invariant PerformedSoFar(fw, View(), j, i) && i <= |fw.batches[j].items|
        invariant (View(), files') == Performed(fw, files, j, i)
        decreases |fw.batches[j].items| - i
      {
        PerformNext(fw, View(), j, i);
        TransferKeeps(fw, View(), files', j, i);
        files' := TransferNext(j, files');
        i := i + 1;
      }
    }

    /**
     A dispatched batch of reads has every buffer filled from the file its handle stands for, and leaves the
     files alone.
     */
    static lemma {:induction false} ReadsFillBuffers(fw: Forwarder, files: Files, j: nat, n: nat, i: nat)
      requires Tables(fw) && Performable(fw, j) && i < n <= |fw.batches[j].items|
      requires BatchOp(fw.batches[j]) == READ
      ensures var (fw', files') := Performed(fw, files, j, n);
              var item := fw.batches[j].items[i];
              && files' == files && item.addr < |fw'.records|
              && fw'.records[item.addr].buffer ==
                 ReadAt(files, fw.descriptors[item.req.msg.handle], item.req.msg.offset, item.req.msg.size)
    {
      hide Tables, Transfer, ReadAt;
      var (fw1, files1) := Performed(fw, files, j, n - 1);
      PerformNext(fw, fw1, j, n - 1);
      TransferReads(fw1, files1, j);
      if n > 1 { ReadsFillBuffers(fw, files, j, n - 1, if i < n - 1 then i else 0); }
      if i < n - 1 { ItemsDiffer(fw, j, i, n - 1); }
    }

    static lemma TransferReads(fw: Forwarder, files: Files, j: nat)
      requires CanPerform(fw, j) && Performing(fw, j).req.msg.handle in fw.descriptors && BatchOp(fw.batches[j]) == READ
      ensures var (fw', files') := Transfer(fw, files, j);
              var item := Performing(fw, j);
              && files' == files && |fw'.records| == |fw.records|
              && fw'.records[item.addr].buffer ==
                 ReadAt(files, fw.descriptors[item.req.msg.handle], item.req.msg.offset, item.req.msg.size)
              && forall a :: 0 <= a < |fw.records| && a != item.addr ==> fw'.records[a] == fw.records[a]
    {
      hide ReadAt;
    }

    /** No two requests of a batch that are not answered share a record. */
    static lemma ItemsDiffer(fw: Forwarder, j: nat, i: nat, k: nat)
      requires Tables(fw) && j < |fw.batches| && fw.batches[j].replied <= i < k < |fw.batches[j].items|
      ensures fw.batches[j].items[i].addr != fw.batches[j].items[k].addr
    {
      hide Staffed;
      assert BatchOk(fw, j);
      assert ItemOk(fw, fw.batches[j], i) && ItemOk(fw, fw.batches[j], k);
    }

    // ---------- callbacks ----------

    /** A performed batch that a thread of the pool is about to answer. */
    static ghost predicate Answerable(fw: Forwarder, j: nat) {
      j < |fw.batches| && fw.batches[j].progress.On? && fw.batches[j].performed == |fw.batches[j].items|
        && fw.batches[j].replied == 0
    }

    /** The forwarder after the first n requests of a batch have been answered. */
    static ghost function Answered(fw: Forwarder, j: nat, n: nat): Forwarder
      requires Tables(fw) && Answerable(fw, j) && n <= |fw.batches[j].items|
      ensures AnsweredSoFar(fw, Answered(fw, j, n), j, n)
      decreases n
    {
      if n == 0 then (NothingAnswered(fw, j); fw)
      else
        var fw1 := Answered(fw, j, n - 1);
        AnswerNext(fw, fw1, j, n - 1);
        Complete(fw1, j)
    }

    /** The first n requests of a batch have left the table; the records of the others are as they were. */
    static ghost predicate AnsweredSoFar(fw: Forwarder, fw': Forwarder, j: nat, n: nat) {
      && Tables(fw') && j < |fw.batches| == |fw'.batches| && n <= |fw.batches[j].items|
      && fw'.batches[j] ==
        fw.batches[j].(replied := n, progress := if n == |fw.batches[j].items| then Over else fw.batches[j].progress)
      && (forall i :: 0 <= i < n ==> fw.batches[j].items[i].req.id !in fw'.requests)
      && (forall i :: n <= i < |fw.batches[j].items| ==> SameRecord(fw, fw', fw.batches[j].items[i].addr))
    }

    static predicate SameRecord(fw: Forwarder, fw': Forwarder, a: nat) {
      a < |fw.records| && a < |fw'.records| && fw'.records[a] == fw.records[a]
    }

    static lemma NothingAnswered(fw: Forwarder, j: nat)
      requires Tables(fw) && Answerable(fw, j)
      ensures AnsweredSoFar(fw, fw, j, 0)
    {
      assert BatchOk(fw, j);
      forall i | 0 <= i < |fw.batches[j].items| ensures SameRecord(fw, fw, fw.batches[j].items[i].addr) {
        assert ItemOk(fw, fw.batches[j], i);
      }
    }

    static lemma CanAnswer(fw: Forwarder, j: nat)
      requires Tables(fw) && j < |fw.batches| && fw.batches[j].progress.On?
               && fw.batches[j].performed == |fw.batches[j].items|
      requires fw.batches[j].replied < |fw.batches[j].items|
      ensures CanReply(fw, j)
    {
      hide Core;
      assert BatchManned(fw, j);
    }

    static lemma AnswerNext(fw: Forwarder, fw': Forwarder, j: nat, n: nat)
      requires AnsweredSoFar(fw, fw', j, n) && Answerable(fw, j) && n < |fw.batches[j].items|
      ensures CanReply(fw', j) && Known(fw', Replying(fw', j))
      ensures var item := fw.batches[j].items[n];
              Replying(fw', j) == item.req.id && fw'.requests[item.req.id] == item.addr
                && SameRecord(fw, fw', item.addr)
      ensures AnsweredSoFar(fw, Complete(fw', j), j, n + 1)
    {
      hide Tables;
      CanAnswer(fw', j);
      CompleteOk(fw', j);
      AnswerFinds(fw', j);
      forall i | n + 1 <= i < |fw.batches[j].items|
        ensures SameRecord(fw, Complete(fw', j), fw.batches[j].items[i].addr)
      {
        ItemsDiffer(fw', j, n, i);
        assert SameRecord(fw, fw', fw.batches[j].items[i].addr);
      }
    }

    static lemma AnswerFinds(fw: Forwarder, j: nat)
      requires Tables(fw) && CanReply(fw, j)
      ensures Known(fw, Replying(fw, j))
              && fw.requests[Replying(fw, j)] == fw.batches[j].items[fw.batches[j].replied].addr
    {
      hide Core, Staffed;
      ReplyFindsIn(fw, j);
    }

    /** The client of the i-th request of a batch, and what it is sent. */
    static function ReplyTo(fw: Forwarder, j: nat, i: nat): (nat, Packet)
      requires j < |fw.batches| && i < |fw.batches[j].items| && fw.batches[j].items[i].addr < |fw.records|
    {
      var rec := fw.records[fw.batches[j].items[i].addr];
      (rec.req.rank, Reply(BatchOp(fw.batches[j]), rec))
    }

    /** The records of a batch exist. */
    static ghost predicate Recorded(fw: Forwarder, j: nat) {
      j < |fw.batches| && forall i :: 0 <= i < |fw.batches[j].items| ==> fw.batches[j].items[i].addr < |fw.records|
    }

    /** The replies of a callback, in order. */
    static function Replies(fw: Forwarder, j: nat, n: nat): (r: seq<(nat, Packet)>)
      requires Recorded(fw, j) && n <= |fw.batches[j].items|
      ensures |r| == n && forall i :: 0 <= i < n ==> r[i] == ReplyTo(fw, j, i)
    {
      seq(n, i requires 0 <= i < n => ReplyTo(fw, j, i))
    }

    static lemma MoreReplies(fw: Forwarder, j: nat, i: nat)
      requires Recorded(fw, j) && i < |fw.batches[j].items|
      ensures Replies(fw, j, 0) == [] && Replies(fw, j, i + 1) == Replies(fw, j, i) + [ReplyTo(fw, j, i)]
    {
    }

    static lemma AllRecorded(fw: Forwarder, j: nat)
      requires Tables(fw) && Answerable(fw, j)
      ensures Recorded(fw, j)
    {
      hide Tables;
      NothingAnswered(fw, j);
      forall i | 0 <= i < |fw.batches[j].items| ensures fw.batches[j].items[i].addr < |fw.records| {
        assert SameRecord(fw, fw, fw.batches[j].items[i].addr);
      }
    }

    /**
     The callback of a batch: every request is found in the table under the identifier that the
     batch remembers, removed, and its client is sent what the record holds.
     */
    method CallbackBatch(j: nat) returns (replies: seq<(nat, Packet)>)
      requires Tables(View()) && Answerable(View(), j)
      modifies this`records, this`requests, this`batches, this`workers
      ensures View() == Answered(old(View()), j, old(|batches[j].items|))
      ensures Recorded(old(View()), j) && replies == Replies(old(View()), j, old(|batches[j].items|))
    {
      hide Tables, Complete, Replies, Reply;
      ghost var fw := View();
      NothingAnswered(fw, j);
      AllRecorded(fw, j);
      replies := [];
      var i := 0;
      while i < |batches[j].items|
        invariant AnsweredSoFar(fw, View(), j, i) && View() == Answered(fw, j, i)
        invariant replies == Replies(fw, j, i)
        decreases |fw.batches[j].items| - i
      {
        AnswerNext(fw, View(), j, i);
        MoreReplies(fw, j, i);
        var reply := AnswerOne(j);
        replies := replies + [reply];
        i := i + 1;
      }
    }

    /** One request of a performed batch is answered; with the last one the thread is free. */
    method AnswerOne(j: nat) returns (reply: (nat, Packet))
      requires CanReply(View(), j) && Known(View(), Replying(View(), j))
      modifies this`records, this`requests, this`batches, this`workers
      ensures View() == Complete(old(View()), j)
      ensures var rec := old(records)[old(requests)[Replying(old(View()), j)]];
              reply == (rec.req.rank, Reply(BatchOp(old(batches)[j]), rec))
    {
      hide LeaveBatch;
      var b := batches[j];
      var id := b.items[b.replied].req.id;
      var a := requests[id];
      requests := requests - {id};
      var rec := records[a];
      reply := (rec.req.rank,
        if b.items[0].req.msg.op == READ then Packet(rec.req.id, Bytes(rec.buffer)) else Packet(TAG_ACK, Num(1)));
      records := records[a := Answer(rec)];
      batches := batches[j := b.(replied := b.replied + 1)];
      assert View() == CompleteItem(old(View()), j);
      if b.replied + 1 == |b.items| {
        Leave(j, Over);
      }
    }
  }
}
