/**
 What the threads' code does in one go is what the pipeline does in a sequence of steps,
 so that what holds of all runs of the pipeline holds of the code.
 */
module ServerSteps {
  import opened Forge
  import opened Protocol
  import opened Forwarding
  import opened Pipeline
  import opened Server

  /** The steps are possible one after the other and lead from s to t. */
  ghost predicate Path(cfg: Setup, s: State, ls: seq<Label>, t: State) {
    if ls == [] then t == s
    else
      var init := ls[..|ls| - 1];
      exists m :: Path(cfg, s, init, m) && Enabled(cfg, m, ls[|ls| - 1]) && t == Do(cfg, m, ls[|ls| - 1])
  }

  lemma OneMore(cfg: Setup, s: State, ls: seq<Label>, m: State, l: Label)
    requires Path(cfg, s, ls, m) && Enabled(cfg, m, l)
    ensures Path(cfg, s, ls + [l], Do(cfg, m, l))
  {
    hide Enabled, Do;
    assert (ls + [l])[..|ls|] == ls;
  }

  /** The state when a round of a handler is over: its forwarder has changed and its reply, if there is one, is sent. */
  function AfterRound(s: State, f: nat, fw: Forwarder, c: nat, reply: Option<Packet>): State
    requires f < |s.fw| && c < |s.cl|
  {
    SetForwarder(if reply.Some? then SetClient(s, c, Post(s.cl[c], reply.value)) else s, f, fw)
  }

  function HandlerLabels(f: nat, h: nat, a: nat, op: Operation, fd: int, ack: int): seq<Label> {
    match op
    case OPEN => [Label.Take(f, h), Serve(f, a, fd), SendHandle(f, a)]
    case CLOSE => [Label.Take(f, h), Serve(f, a, fd), AckClose(f, a, ack)]
    case _ => [Label.Take(f, h), Serve(f, a, fd)]
  }

  /** A round of a handler is the taking, the serving and the replying of the oldest incoming request. */
  lemma HandleIsSteps(cfg: Setup, s: State, f: nat, h: nat, fd: int, ack: int)
    requires s.fault == NoFault && CanTake(s, f, h) && fd !in s.fw[f].descriptors
    requires var msg := s.fw[f].records[s.fw[f].taken].req.msg; msg.op == CLOSE ==> msg.file in s.fw[f].handles
    ensures var rec := s.fw[f].records[s.fw[f].taken];
            var (fw', reply) := Process.Handled(s.fw[f], h, fd, ack);
            Path(cfg, s, HandlerLabels(f, h, s.fw[f].taken, rec.req.msg.op, fd, ack),
                 AfterRound(s, f, fw', rec.req.rank, reply))
  {
    hide Enabled, Do, DoServe, Process.Handled, AfterRound, Path;
    var fw, a := s.fw[f], s.fw[f].taken;
    TakeIsStep(cfg, s, f, h);
    var s1 := SetForwarder(s, f, Forwarding.Take(fw, h));
    OneMore(cfg, s, [], s, Label.Take(f, h));
    assert [] + [Label.Take(f, h)] == [Label.Take(f, h)];
    ServeIsStep(cfg, s, f, h, fd);
    var s2 := DoServe(s1, f, a, fd);
    OneMore(cfg, s, [Label.Take(f, h)], s1, Serve(f, a, fd));
    assert [Label.Take(f, h)] + [Serve(f, a, fd)] == [Label.Take(f, h), Serve(f, a, fd)];
    var labels := [Label.Take(f, h), Serve(f, a, fd)];
    match fw.records[a].req.msg.op
    case OPEN =>
      OpenRound(s, f, h, fd, ack);
      SendIsStep(cfg, s2, f, a);
      OneMore(cfg, s, labels, s2, SendHandle(f, a));
      assert labels + [SendHandle(f, a)] == [Label.Take(f, h), Serve(f, a, fd), SendHandle(f, a)];
    case CLOSE =>
      CloseRound(s, f, h, fd, ack);
      AckIsStep(cfg, s2, f, a, ack);
      OneMore(cfg, s, labels, s2, AckClose(f, a, ack));
      assert labels + [AckClose(f, a, ack)] == [Label.Take(f, h), Serve(f, a, fd), AckClose(f, a, ack)];
    case _ =>
      PoolRound(s, f, h, fd, ack);
  }

  /** A handler is free and a request of a known client is waiting. */
  predicate CanTake(s: State, f: nat, h: nat) {
    && f < |s.fw| && s.fw[f].taken < |s.fw[f].records| && h < |s.fw[f].handlers| && s.fw[f].handlers[h] == Free
    && s.fw[f].records[s.fw[f].taken].req.rank < |s.cl|
  }

  lemma TakeIsStep(cfg: Setup, s: State, f: nat, h: nat)
    requires s.fault == NoFault && CanTake(s, f, h)
    ensures Path(cfg, s, [], s) && Enabled(cfg, s, Label.Take(f, h))
    ensures Do(cfg, s, Label.Take(f, h)) == SetForwarder(s, f, Forwarding.Take(s.fw[f], h))
  {
    hide Match, Window, AllArrived;
  }

  lemma ServeIsStep(cfg: Setup, s: State, f: nat, h: nat, fd: int)
    requires s.fault == NoFault && CanTake(s, f, h) && fd !in s.fw[f].descriptors
    ensures var s1 := SetForwarder(s, f, Forwarding.Take(s.fw[f], h));
            var a := s.fw[f].taken;
            && HasRecord(s1, f, a) && Enabled(cfg, s1, Serve(f, a, fd))
            && Do(cfg, s1, Serve(f, a, fd)) == DoServe(s1, f, a, fd)
  {
    hide Match, Window, AllArrived, DoServe;
  }

  lemma SendIsStep(cfg: Setup, s: State, f: nat, a: nat)
    requires s.fault == NoFault && HasRecord(s, f, a) && s.fw[f].records[a].stage.Opened?
    ensures Enabled(cfg, s, SendHandle(f, a))
    ensures Do(cfg, s, SendHandle(f, a)) ==
            SendTo(s, f, a, Packet(TAG_HANDLE, Num(s.fw[f].records[a].stage.fh)), Conclude(s.fw[f], a))
  {
    hide Match, Window, AllArrived, SendTo;
  }

  lemma AckIsStep(cfg: Setup, s: State, f: nat, a: nat, ack: int)
    requires s.fault == NoFault && HasRecord(s, f, a) && s.fw[f].records[a].stage == Closed
    ensures Enabled(cfg, s, AckClose(f, a, ack))
    ensures Do(cfg, s, AckClose(f, a, ack)) == SendTo(s, f, a, Packet(TAG_ACK, Num(ack)), Conclude(s.fw[f], a))
  {
    hide Match, Window, AllArrived, SendTo;
  }

  lemma OpenRound(s: State, f: nat, h: nat, fd: int, ack: int)
    requires s.fault == NoFault && CanTake(s, f, h) && s.fw[f].records[s.fw[f].taken].req.msg.op == OPEN
    ensures var a := s.fw[f].taken;
            var s2 := DoServe(SetForwarder(s, f, Forwarding.Take(s.fw[f], h)), f, a, fd);
            var (fw', reply) := Process.Handled(s.fw[f], h, fd, ack);
            && s2.fault == NoFault && HasRecord(s2, f, a) && s2.fw[f].records[a].stage.Opened?
            && SendTo(s2, f, a, Packet(TAG_HANDLE, Num(s2.fw[f].records[a].stage.fh)), Conclude(s2.fw[f], a)) ==
               AfterRound(s, f, fw', s.fw[f].records[a].req.rank, reply)
  {
    var a := s.fw[f].taken;
    var s2 := DoServe(SetForwarder(s, f, Forwarding.Take(s.fw[f], h)), f, a, fd);
    var (fw', reply) := Process.Handled(s.fw[f], h, fd, ack);
    assert Conclude(s2.fw[f], a).records == fw'.records;
    assert s2.fw[f := fw'] == s.fw[f := fw'];
  }

  lemma CloseRound(s: State, f: nat, h: nat, fd: int, ack: int)
    requires s.fault == NoFault && CanTake(s, f, h) && s.fw[f].records[s.fw[f].taken].req.msg.op == CLOSE
    requires s.fw[f].records[s.fw[f].taken].req.msg.file in s.fw[f].handles
    ensures var a := s.fw[f].taken;
            var s2 := DoServe(SetForwarder(s, f, Forwarding.Take(s.fw[f], h)), f, a, fd);
            var (fw', reply) := Process.Handled(s.fw[f], h, fd, ack);
            && s2.fault == NoFault && HasRecord(s2, f, a) && s2.fw[f].records[a].stage == Closed
            && SendTo(s2, f, a, Packet(TAG_ACK, Num(ack)), Conclude(s2.fw[f], a)) ==
               AfterRound(s, f, fw', s.fw[f].records[a].req.rank, reply)
  {
    var a := s.fw[f].taken;
    var s2 := DoServe(SetForwarder(s, f, Forwarding.Take(s.fw[f], h)), f, a, fd);
    var (fw', reply) := Process.Handled(s.fw[f], h, fd, ack);
    assert Conclude(s2.fw[f], a).records == fw'.records;
    assert s2.fw[f := fw'] == s.fw[f := fw'];
  }

  lemma PoolRound(s: State, f: nat, h: nat, fd: int, ack: int)
    requires s.fault == NoFault && CanTake(s, f, h)
    requires var op := s.fw[f].records[s.fw[f].taken].req.msg.op; op != OPEN && op != CLOSE
    ensures var a := s.fw[f].taken;
            var s2 := DoServe(SetForwarder(s, f, Forwarding.Take(s.fw[f], h)), f, a, fd);
            var (fw', reply) := Process.Handled(s.fw[f], h, fd, ack);
            s2 == AfterRound(s, f, fw', s.fw[f].records[a].req.rank, reply)
  {
    var (fw', reply) := Process.Handled(s.fw[f], h, fd, ack);
    assert s.fw[f := Forwarding.Take(s.fw[f], h)][f := fw'] == s.fw[f := fw'];
  }

  /** The end of a pool job is the registration and the scheduling of its request. */
  lemma EndJobIsSteps(cfg: Setup, s: State, f: nat, a: nat)
    requires Enabled(cfg, s, Label.Register(f, a)) && s.fw[f].records[a].req.id !in s.fw[f].requests
    ensures Path(cfg, s, [Label.Register(f, a), Label.Schedule(f, a)],
                 SetForwarder(s, f, Forwarding.Schedule(Forwarding.Register(s.fw[f], a), a)))
  {
    hide Enabled, Do;
    OneMore(cfg, s, [], s, Label.Register(f, a));
    var s1 := Do(cfg, s, Label.Register(f, a));
    assert [] + [Label.Register(f, a)] == [Label.Register(f, a)];
    RegisteredIsNext(cfg, s, f, a);
    OneMore(cfg, s, [Label.Register(f, a)], s1, Label.Schedule(f, a));
    assert [Label.Register(f, a)] + [Label.Schedule(f, a)] == [Label.Register(f, a), Label.Schedule(f, a)];
  }

  lemma RegisteredIsNext(cfg: Setup, s: State, f: nat, a: nat)
    requires Enabled(cfg, s, Label.Register(f, a)) && s.fw[f].records[a].req.id !in s.fw[f].requests
    ensures var s1 := Do(cfg, s, Label.Register(f, a));
            && Enabled(cfg, s1, Label.Schedule(f, a))
            && Do(cfg, s1, Label.Schedule(f, a)) ==
              SetForwarder(s, f, Forwarding.Schedule(Forwarding.Register(s.fw[f], a), a))
  {
    var s1 := Do(cfg, s, Label.Register(f, a));
    assert s.fw[f := s1.fw[f]][f := Forwarding.Schedule(s1.fw[f], a)] == s.fw[f := Forwarding.Schedule(s1.fw[f], a)];
  }

  function Times(n: nat, l: Label): seq<Label> {
    if n == 0 then [] else Times(n - 1, l) + [l]
  }

  /** The dispatch of a batch is one transfer step for each of its requests, on the forwarder and on the files. */
  lemma {:induction false} DispatchIsSteps(cfg: Setup, s: State, f: nat, j: nat, n: nat)
    requires s.fault == NoFault && f < |s.fw| && Tables(s.fw[f]) && Process.Performable(s.fw[f], j)
    requires n <= |s.fw[f].batches[j].items|
    ensures var (fw', files') := Process.Performed(s.fw[f], s.files, j, n);
            Path(cfg, s, Times(n, Label.Perform(f, j)), SetForwarder(s, f, fw').(files := files'))
  {
    hide Tables, Transfer, Enabled, Do;
    if n == 0 {
      assert s.fw[f := s.fw[f]] == s.fw;
    } else {
      DispatchIsSteps(cfg, s, f, j, n - 1);
      var (fw1, files1) := Process.Performed(s.fw[f], s.files, j, n - 1);
      var m := SetForwarder(s, f, fw1).(files := files1);
      Process.PerformNext(s.fw[f], fw1, j, n - 1);
      TransferIsStep(cfg, m, f, j);
      OneMore(cfg, s, Times(n - 1, Label.Perform(f, j)), m, Label.Perform(f, j));
      assert m.fw[f := Transfer(fw1, files1, j).0] == s.fw[f := Transfer(fw1, files1, j).0];
    }
  }

  lemma TransferIsStep(cfg: Setup, m: State, f: nat, j: nat)
    requires m.fault == NoFault && f < |m.fw| && CanPerform(m.fw[f], j)
    requires Performing(m.fw[f], j).req.msg.handle in m.fw[f].descriptors
    ensures Enabled(cfg, m, Label.Perform(f, j))
    ensures var (fw, files) := Transfer(m.fw[f], m.files, j);
            Do(cfg, m, Label.Perform(f, j)) == SetForwarder(m, f, fw).(files := files)
  {
    hide Transfer;
  }

  /** Packets are posted to clients, one after the other. */
  function Posted(cl: seq<Client>, replies: seq<(nat, Packet)>): (r: seq<Client>)
    ensures |r| == |cl|
  {
    if replies == [] then cl
    else
      var cl1 := Posted(cl, replies[..|replies| - 1]);
      var (c, p) := replies[|replies| - 1];
      if c < |cl1| then cl1[c := Post(cl1[c], p)] else cl1
  }

  /** The packets for one client. */
  function For(c: nat, replies: seq<(nat, Packet)>): seq<Packet> {
    if replies == [] then []
    else
      var last := replies[|replies| - 1];
      For(c, replies[..|replies| - 1]) + if last.0 == c then [last.1] else []
  }

  /** Each client's channel is extended by the packets for it, in order, and nothing else changes. */
  lemma {:induction false} PostedExtends(cl: seq<Client>, replies: seq<(nat, Packet)>, c: nat)
    requires c < |cl|
    ensures Posted(cl, replies)[c] == cl[c].(toClient := cl[c].toClient + For(c, replies))
  {
    if replies == [] {
      assert cl[c].toClient + [] == cl[c].toClient;
    } else {
      var init, last := replies[..|replies| - 1], replies[|replies| - 1];
      PostedExtends(cl, init, c);
      if last.0 == c {
        assert cl[c].toClient + For(c, init) + [last.1] == cl[c].toClient + (For(c, init) + [last.1]);
      } else {
        assert For(c, init) + [] == For(c, init);
      }
    }
  }

  /** The state when the first n requests of a batch have been answered. */
  ghost function AfterCallback(s: State, f: nat, j: nat, n: nat): State
    requires f < |s.fw| && Tables(s.fw[f]) && Process.Answerable(s.fw[f], j) && Process.Recorded(s.fw[f], j)
    requires n <= |s.fw[f].batches[j].items|
  {
    SetForwarder(s, f, Process.Answered(s.fw[f], j, n)).(cl := Posted(s.cl, Process.Replies(s.fw[f], j, n)))
  }

  /**
   The callback of a batch is one answering step for each of its requests, none of which faults:
   it leads to the forwarder that the code leaves behind, with the code's replies sent to their clients.
   */
  lemma {:induction false} CallbackIsSteps(cfg: Setup, s: State, f: nat, j: nat, n: nat)
    requires s.fault == NoFault && f < |s.fw| && Tables(s.fw[f]) && Process.Answerable(s.fw[f], j)
    requires n <= |s.fw[f].batches[j].items|
    ensures Process.Recorded(s.fw[f], j) && Path(cfg, s, Times(n, Label.Complete(f, j)), AfterCallback(s, f, j, n))
  {
    hide Tables, Forwarding.Complete, Enabled, Do, AfterCallback, Path, Posted, Process.Replies;
    Process.AllRecorded(s.fw[f], j);
    if n == 0 {
      CallbackBegins(cfg, s, f, j);
    } else {
      CallbackIsSteps(cfg, s, f, j, n - 1);
      var m := AfterCallback(s, f, j, n - 1);
      NextAnswer(cfg, s, f, j, n);
      OneMore(cfg, s, Times(n - 1, Label.Complete(f, j)), m, Label.Complete(f, j));
    }
  }

  lemma CallbackBegins(cfg: Setup, s: State, f: nat, j: nat)
    requires f < |s.fw| && Tables(s.fw[f]) && Process.Answerable(s.fw[f], j) && Process.Recorded(s.fw[f], j)
    ensures AfterCallback(s, f, j, 0) == s && Path(cfg, s, [], s)
  {
    hide Tables;
    assert s.fw[f := s.fw[f]] == s.fw;
  }

  lemma NextAnswer(cfg: Setup, s: State, f: nat, j: nat, n: nat)
    requires s.fault == NoFault && f < |s.fw| && Tables(s.fw[f]) && Process.Answerable(s.fw[f], j)
    requires Process.Recorded(s.fw[f], j) && 1 <= n <= |s.fw[f].batches[j].items|
    ensures var m := AfterCallback(s, f, j, n - 1);
            Enabled(cfg, m, Label.Complete(f, j)) && Do(cfg, m, Label.Complete(f, j)) == AfterCallback(s, f, j, n)
  {
    hide Tables, Forwarding.Complete, Enabled, Do, Posted, Process.Replies;
    var m := AfterCallback(s, f, j, n - 1);
    Process.AnswerNext(s.fw[f], m.fw[f], j, n - 1);
    AnswerIsStep(cfg, m, f, j);
    NextReply(s, f, j, n);
    assert m.fw[f := Forwarding.Complete(m.fw[f], j)] == s.fw[f := Forwarding.Complete(m.fw[f], j)];
  }

  lemma NextReply(s: State, f: nat, j: nat, n: nat)
    requires f < |s.fw| && Process.Recorded(s.fw[f], j) && 1 <= n <= |s.fw[f].batches[j].items|
    ensures var cl := Posted(s.cl, Process.Replies(s.fw[f], j, n - 1));
            var (c, p) := Process.ReplyTo(s.fw[f], j, n - 1);
            Posted(s.cl, Process.Replies(s.fw[f], j, n)) == if c < |cl| then cl[c := Post(cl[c], p)] else cl
  {
    var replies := Process.Replies(s.fw[f], j, n);
    assert replies[..n - 1] == Process.Replies(s.fw[f], j, n - 1);
  }

  lemma AnswerIsStep(cfg: Setup, m: State, f: nat, j: nat)
    requires m.fault == NoFault && f < |m.fw| && CanReply(m.fw[f], j) && Known(m.fw[f], Replying(m.fw[f], j))
    ensures Enabled(cfg, m, Label.Complete(f, j))
    ensures var rec := m.fw[f].records[m.fw[f].requests[Replying(m.fw[f], j)]];
            var (c, p) := (rec.req.rank, Reply(BatchOp(m.fw[f].batches[j]), rec));
            Do(cfg, m, Label.Complete(f, j)) ==
            SetForwarder(m, f, Forwarding.Complete(m.fw[f], j)).(cl := if c < |m.cl| then m.cl[c := Post(m.cl[c], p)]
              else m.cl)
  {
    hide Forwarding.Complete, Reply;
  }
}
