/** Every step of the pipeline keeps the invariant. */
module Steps {
  import opened Forge
  import opened Offsets
  import opened Protocol
  import opened Conversation
  import opened Forwarding
  import opened TableSteps
  import opened ForwarderSteps
  import opened Pipeline
  import opened Invariant

  /** An unanswered request and the client that waits for it know each other. */
  lemma OwnerOf(cfg: Setup, s: State, f: nat, a: nat)
    requires Inv(cfg, s) && f < |s.fw| && a < |s.fw[f].records| && Live(s.fw[f].records[a])
    ensures var rec := s.fw[f].records[a];
            var c := rec.req.rank;
            && IsClient(cfg, s, c) && cfg.Home(c) == f && s.cl[c].cur == Got(a)
            && RecOf(cfg, s, c) == rec && Ok(cfg, c, s.cl[c], rec)
  {
    hide Ok, Sized, Tables, FilesOk, Handles, SignOffs, Barriers, FaultOk, ShutdownThreshold, ForwarderOf;
    assert OwnerOk(cfg, s, f, a);
    assert ClientOk(cfg, s, s.fw[f].records[a].req.rank);
  }

  /** One record of one forwarder and the client it belongs to change. */
  ghost predicate OneRecord(cfg: Setup, s: State, s': State, f: nat, a: nat) {
    && f < |s.fw| && a < |s.fw[f].records| && Live(s.fw[f].records[a]) && |s'.fw| == |s.fw| && |s'.cl| == |s.cl|
    && s'.fw == s.fw[f := s'.fw[f]]
    && |s'.fw[f].records| == |s.fw[f].records|
    && s'.fw[f].records == s.fw[f].records[a := s'.fw[f].records[a]]
    && s'.fw[f].records[a].req == s.fw[f].records[a].req
    && var c := s.fw[f].records[a].req.rank;
       && c < |s.cl| && s'.cl == s.cl[c := s'.cl[c]]
       && s'.cl[c].cur == s.cl[c].cur && s'.cl[c].phase == s.cl[c].phase && s'.cl[c].pc == s.cl[c].pc
  }

  lemma OneRecordOnlyClient(cfg: Setup, s: State, s': State, f: nat, a: nat)
    requires Inv(cfg, s) && OneRecord(cfg, s, s', f, a)
    ensures Sized(cfg, s')
    ensures var c := s.fw[f].records[a].req.rank;
            && IsClient(cfg, s, c) && s.cl[c].cur == Got(a) && cfg.Home(c) == f
            && RecOf(cfg, s, c) == s.fw[f].records[a] && RecOf(cfg, s', c) == s'.fw[f].records[a]
            && OnlyClient(cfg, s, s', c)
  {
    hide Ok, Tables, FilesOk, Handles, SignOffs, Barriers, FaultOk, ShutdownThreshold, ForwarderOf;
    OwnerOf(cfg, s, f, a);
    var c := s.fw[f].records[a].req.rank;
    forall d | 0 <= d < |s'.cl| ensures IsClient(cfg, s', d) { assert IsClient(cfg, s, d); }
    forall d | 0 <= d < |s.cl| && d != c ensures Same(cfg, s, s', d) {
      assert ClientOk(cfg, s, d);
      if s.cl[d].cur.Got? { RankOf(cfg, s, d); }
    }
  }

  lemma OneRecordKeepsOwners(cfg: Setup, s: State, s': State, f: nat, a: nat)
    requires Inv(cfg, s) && OneRecord(cfg, s, s', f, a)
    requires s'.fw[f].records[a].answers == if Live(s'.fw[f].records[a]) then 0 else 1
    ensures Owners(cfg, s')
  {
    hide Ok, Tables, FilesOk, Handles, SignOffs, Barriers, FaultOk, Conversations, ShutdownThreshold, ForwarderOf;
    OneRecordOnlyClient(cfg, s, s', f, a);
    forall g, b | 0 <= g < |s'.fw| && 0 <= b < |s'.fw[g].records| ensures OwnerOk(cfg, s', g, b) {
      assert OwnerOk(cfg, s, g, b);
    }
  }

  lemma ForwarderKeepsTables(cfg: Setup, s: State, s': State, f: nat)
    requires AllTables(cfg, s) && f < |s.fw| == |s'.fw| && s'.fw == s.fw[f := s'.fw[f]] && ForwarderOk(cfg, s'.fw[f])
    ensures AllTables(cfg, s')
  {
    hide ForwarderOk;
    forall g | 0 <= g < |s'.fw| ensures ForwarderOk(cfg, s'.fw[g]) {}
  }

  /** All parts of the invariant but the one about files, for a step of the forwarder on one request. */
  lemma RecordCore(cfg: Setup, s: State, s': State, f: nat, a: nat)
    requires Inv(cfg, s) && OneRecord(cfg, s, s', f, a) && s'.fault == s.fault
    requires SameFiling(s.fw[f], s'.fw[f]) && SameCount(s.fw[f], s'.fw[f])
    requires ForwarderOk(cfg, s'.fw[f])
    requires var c := s.fw[f].records[a].req.rank;
             && Ok(cfg, c, s'.cl[c], s'.fw[f].records[a])
             && SameOpen(s.cl[c], s.fw[f].records[a], s'.cl[c], s'.fw[f].records[a])
             && SignedOff(s.cl[c]) == SignedOff(s'.cl[c])
    requires s'.fw[f].records[a].answers == if Live(s'.fw[f].records[a]) then 0 else 1
    ensures Sized(cfg, s') && Conversations(cfg, s') && Owners(cfg, s') && AllTables(cfg, s')
    ensures Handles(cfg, s') && SignOffs(cfg, s') && Barriers(cfg, s') && FaultOk(cfg, s')
  {
    var c := s.fw[f].records[a].req.rank;
    hide Ok, Tables, SameOpen, Owners, Conversations, FilesOk, Handles, SignOffs, Barriers, ShutdownThreshold,
      ForwarderOf;
    OneRecordOnlyClient(cfg, s, s', f, a);
    OneRecordKeepsOwners(cfg, s, s', f, a);
    ConversationsKept(cfg, s, s', c);
    ForwarderKeepsTables(cfg, s, s', f);
    HandlesKept(cfg, s, s', c);
    SignOffsKept(cfg, s, s', c);
    BarriersKept(cfg, s, s', c);
  }

  /** A step of the forwarder on one request that changes nothing the rest of the system sees. */
  lemma RecordStep(cfg: Setup, s: State, s': State, f: nat, a: nat)
    requires Inv(cfg, s) && OneRecord(cfg, s, s', f, a) && s'.files == s.files && s'.fault == s.fault
    requires SameFiling(s.fw[f], s'.fw[f]) && SameCount(s.fw[f], s'.fw[f])
    requires ForwarderOk(cfg, s'.fw[f])
    requires var c := s.fw[f].records[a].req.rank;
             && Ok(cfg, c, s'.cl[c], s'.fw[f].records[a])
             && SameView(cfg, s.cl[c], s.fw[f].records[a], s'.cl[c], s'.fw[f].records[a])
    requires s'.fw[f].records[a].answers == if Live(s'.fw[f].records[a]) then 0 else 1
    ensures Inv(cfg, s')
  {
    var c := s.fw[f].records[a].req.rank;
    hide Ok, Tables, SameView, SameOpen, SameWrites, Owners, Conversations, FilesOk, Handles, SignOffs, Barriers,
      ShutdownThreshold, ForwarderOf;
    ViewParts(cfg, s.cl[c], s.fw[f].records[a], s'.cl[c], s'.fw[f].records[a]);
    RecordCore(cfg, s, s', f, a);
    OneRecordOnlyClient(cfg, s, s', f, a);
    FilesKept(cfg, s, s', c);
  }

  lemma ViewParts(cfg: Setup, cl: Client, rec: Record, cl': Client, rec': Record)
    requires SameView(cfg, cl, rec, cl', rec')
    ensures SameOpen(cl, rec, cl', rec') && SameWrites(cfg, cl, rec, cl', rec') && SignedOff(cl) == SignedOff(cl')
  {
  }

  lemma TablesOf(cfg: Setup, s: State, f: nat)
    requires Inv(cfg, s) && f < |s.fw|
    ensures ForwarderOk(cfg, s.fw[f])
  {
    hide Tables, Ok, ShutdownThreshold, ForwarderOf;
  }

  // ---------- steps of the forwarder on one request ----------

  lemma TakeStep(cfg: Setup, s: State, f: nat, h: nat)
    requires Inv(cfg, s) && Enabled(cfg, s, Label.Take(f, h))
    ensures Inv(cfg, Do(cfg, s, Label.Take(f, h)))
  {
    hide Inv, Tables, Ok, SameView, SameOpen, SameWrites, ShutdownThreshold, ForwarderOf;
    TablesOf(cfg, s, f);
    TakeOk(s.fw[f], h);
    OnwardStep(cfg, s, f, s.fw[f].taken, Forwarding.Take(s.fw[f], h));
  }

  /** A step that moves a request on in a way its client cannot see. */
  lemma OnwardStep(cfg: Setup, s: State, f: nat, a: nat, fw': Forwarder)
    requires Inv(cfg, s) && f < |s.fw| && a < |s.fw[f].records| && ForwarderOk(cfg, fw')
    requires Live(s.fw[f].records[a])
    requires |fw'.records| == |s.fw[f].records| && fw'.records == s.fw[f].records[a := fw'.records[a]]
    requires Onward(s.fw[f].records[a], fw'.records[a])
    requires SameFiling(s.fw[f], fw') && SameCount(s.fw[f], fw')
    ensures Inv(cfg, SetForwarder(s, f, fw'))
  {
    hide Inv, Tables, Ok, SameView, SameOpen, SameWrites, ShutdownThreshold, ForwarderOf;
    OwnerOf(cfg, s, f, a);
    assert s.fw[f].records[a].answers == 0 by { NoAnswerYet(cfg, s, f, a); }
    var c := s.fw[f].records[a].req.rank;
    OnwardKeeps(cfg, c, s.cl[c], s.fw[f].records[a], fw'.records[a]);
    RecordStep(cfg, s, SetForwarder(s, f, fw'), f, a);
  }

  lemma NoAnswerYet(cfg: Setup, s: State, f: nat, a: nat)
    requires Inv(cfg, s) && f < |s.fw| && a < |s.fw[f].records| && Live(s.fw[f].records[a])
    ensures s.fw[f].records[a].answers == 0
  {
    hide Ok, Tables, Conversations, ShutdownThreshold, ForwarderOf;
    assert OwnerOk(cfg, s, f, a);
  }

  lemma PoolStep(cfg: Setup, s: State, f: nat, a: nat, fd: int)
    requires Inv(cfg, s) && Enabled(cfg, s, Label.Serve(f, a, fd))
    requires s.fw[f].records[a].req.msg.op != OPEN && s.fw[f].records[a].req.msg.op != CLOSE
    ensures Inv(cfg, Do(cfg, s, Label.Serve(f, a, fd)))
  {
    hide Inv, Tables, Ok, SameView, SameOpen, SameWrites, ShutdownThreshold, ForwarderOf;
    TablesOf(cfg, s, f);
    ToPoolOk(s.fw[f], a);
    OnwardStep(cfg, s, f, a, ToPool(s.fw[f], a));
  }

  lemma PullStep(cfg: Setup, s: State, f: nat, w: nat)
    requires Inv(cfg, s) && Enabled(cfg, s, Label.Pull(f, w))
    ensures Inv(cfg, Do(cfg, s, Label.Pull(f, w)))
  {
    hide Inv, Tables, Ok, SameView, SameOpen, SameWrites, ShutdownThreshold, ForwarderOf;
    TablesOf(cfg, s, f);
    var fw, fw' := s.fw[f], Forwarding.Pull(s.fw[f], w);
    PullOk(fw, w);
    if fw.jobs[fw.pulled].HandleJob? {
      OnwardStep(cfg, s, f, fw.jobs[fw.pulled].addr, fw');
    } else {
      QuietStep(cfg, s, f, fw');
    }
  }

  lemma RegisterStep(cfg: Setup, s: State, f: nat, a: nat)
    requires Inv(cfg, s) && Enabled(cfg, s, Label.Register(f, a))
    ensures Inv(cfg, Do(cfg, s, Label.Register(f, a)))
  {
    hide Inv, Tables, Ok, SameView, SameOpen, SameWrites, ShutdownThreshold, ForwarderOf;
    TablesOf(cfg, s, f);
    RegisterOk(s.fw[f], a);
    OnwardStep(cfg, s, f, a, Forwarding.Register(s.fw[f], a));
  }

  lemma ScheduleStep(cfg: Setup, s: State, f: nat, a: nat)
    requires Inv(cfg, s) && Enabled(cfg, s, Label.Schedule(f, a))
    ensures Inv(cfg, Do(cfg, s, Label.Schedule(f, a)))
  {
    hide Inv, Tables, Ok, SameView, SameOpen, SameWrites, ShutdownThreshold, ForwarderOf;
    TablesOf(cfg, s, f);
    ScheduleOk(s.fw[f], a);
    OnwardStep(cfg, s, f, a, Forwarding.Schedule(s.fw[f], a));
  }

  lemma ReleaseStep(cfg: Setup, s: State, f: nat, id: nat)
    requires Inv(cfg, s) && Enabled(cfg, s, Label.Release(f, id))
    ensures Inv(cfg, Do(cfg, s, Label.Release(f, id)))
  {
    hide Inv, Tables, Ok, SameView, SameOpen, SameWrites, ShutdownThreshold, ForwarderOf;
    TablesOf(cfg, s, f);
    ReleaseOk(s.fw[f], id);
    OnwardStep(cfg, s, f, s.fw[f].requests[id], Forwarding.Release(s.fw[f], id));
  }

  /** A step that sends a packet to the client or takes one from it. */
  lemma PacketStep(cfg: Setup, s: State, f: nat, a: nat, cl: Client, fw': Forwarder)
    requires Inv(cfg, s) && HasRecord(s, f, a) && Live(s.fw[f].records[a]) && ForwarderOk(cfg, fw')
    requires |fw'.records| == |s.fw[f].records| && fw'.records == s.fw[f].records[a := fw'.records[a]]
    requires SameFiling(s.fw[f], fw') && SameCount(s.fw[f], fw')
    requires var c := s.fw[f].records[a].req.rank;
             var rec := fw'.records[a];
             && cl.cur == s.cl[c].cur && cl.phase == s.cl[c].phase && cl.pc == s.cl[c].pc
             && rec.req == s.fw[f].records[a].req
             && Ok(cfg, c, cl, rec) && SameView(cfg, s.cl[c], s.fw[f].records[a], cl, rec)
             && rec.answers == s.fw[f].records[a].answers + if Live(rec) then 0 else 1
    ensures Inv(cfg, SetForwarder(SetClient(s, s.fw[f].records[a].req.rank, cl), f, fw'))
  {
    hide Inv, Tables, Ok, SameView, SameOpen, SameWrites, ShutdownThreshold, ForwarderOf;
    NoAnswerYet(cfg, s, f, a);
    RecordStep(cfg, s, SetForwarder(SetClient(s, s.fw[f].records[a].req.rank, cl), f, fw'), f, a);
  }

  lemma SendHandleStep(cfg: Setup, s: State, f: nat, a: nat)
    requires Inv(cfg, s) && Enabled(cfg, s, Label.SendHandle(f, a))
    ensures Inv(cfg, Do(cfg, s, Label.SendHandle(f, a)))
  {
    hide Inv, Tables, Ok, SameView, SameOpen, SameWrites, ShutdownThreshold, ForwarderOf;
    OwnerOf(cfg, s, f, a);
    TablesOf(cfg, s, f);
    ConcludeOk(s.fw[f], a);
    var rec := s.fw[f].records[a];
    var c := rec.req.rank;
    HandleSentKeeps(cfg, c, s.cl[c], rec);
    PacketStep(cfg, s, f, a, Post(s.cl[c], Packet(TAG_HANDLE, Num(rec.stage.fh))), Conclude(s.fw[f], a));
  }

  lemma AckCloseStep(cfg: Setup, s: State, f: nat, a: nat, ack: int)
    requires Inv(cfg, s) && Enabled(cfg, s, Label.AckClose(f, a, ack))
    ensures Inv(cfg, Do(cfg, s, Label.AckClose(f, a, ack)))
  {
    hide Inv, Tables, Ok, SameView, SameOpen, SameWrites, ShutdownThreshold, ForwarderOf;
    OwnerOf(cfg, s, f, a);
    TablesOf(cfg, s, f);
    ConcludeOk(s.fw[f], a);
    var rec := s.fw[f].records[a];
    var c := rec.req.rank;
    CloseAckedKeeps(cfg, c, s.cl[c], rec, ack);
    PacketStep(cfg, s, f, a, Post(s.cl[c], Packet(TAG_ACK, Num(ack))), Conclude(s.fw[f], a));
  }

  lemma StartStep(cfg: Setup, s: State, f: nat, a: nat)
    requires Inv(cfg, s) && Enabled(cfg, s, Label.Start(f, a))
    ensures Inv(cfg, Do(cfg, s, Label.Start(f, a)))
  {
    hide Inv, Tables, Ok, SameView, SameOpen, SameWrites, ShutdownThreshold, ForwarderOf;
    OwnerOf(cfg, s, f, a);
    TablesOf(cfg, s, f);
    var rec := s.fw[f].records[a];
    SetRecordKeeps(s.fw[f], a, Started(rec));
    StartKeeps(cfg, rec.req.rank, s.cl[rec.req.rank], rec);
    PacketStep(cfg, s, f, a, Post(s.cl[rec.req.rank], IdPacket(rec)), SetRecord(s.fw[f], a, Started(rec)));
  }

  lemma GetBufferStep(cfg: Setup, s: State, f: nat, a: nat)
    requires Inv(cfg, s) && Enabled(cfg, s, Label.GetBuffer(f, a))
    ensures Inv(cfg, Do(cfg, s, Label.GetBuffer(f, a)))
  {
    hide Inv, Tables, Ok, SameView, SameOpen, SameWrites, Match, ShutdownThreshold, ForwarderOf;
    OwnerOf(cfg, s, f, a);
    TablesOf(cfg, s, f);
    var rec := s.fw[f].records[a];
    var cl := s.cl[rec.req.rank];
    var rec' := rec.(buffer := BytesIn(Content(cl.toServer, rec.req.id)), stage := Received);
    SetRecordKeeps(s.fw[f], a, rec');
    BufferKeeps(cfg, rec.req.rank, cl, rec);
    PacketStep(cfg, s, f, a, cl.(toServer := Without(cl.toServer, rec.req.id)), SetRecord(s.fw[f], a, rec'));
  }

  lemma CompleteStep(cfg: Setup, s: State, f: nat, j: nat)
    requires Inv(cfg, s) && Enabled(cfg, s, Label.Complete(f, j))
    ensures Inv(cfg, Do(cfg, s, Label.Complete(f, j)))
  {
    hide Inv, Tables, Ok, SameView, SameOpen, SameWrites, ShutdownThreshold, ForwarderOf;
    TablesOf(cfg, s, f);
    var fw := s.fw[f];
    CompleteOk(fw, j);
    ReplyOp(fw, j);
    var a := fw.requests[Replying(fw, j)];
    OwnerOf(cfg, s, f, a);
    NoAnswerYet(cfg, s, f, a);
    var c := fw.records[a].req.rank;
    ReplyKeeps(cfg, c, s.cl[c], fw.records[a]);
    RecordStep(cfg, s, Do(cfg, s, Label.Complete(f, j)), f, a);
  }

  /** The request that is answered has the operation of its batch. */
  lemma ReplyOp(fw: Forwarder, j: nat)
    requires Tables(fw) && CanReply(fw, j)
    ensures Known(fw, Replying(fw, j))
    ensures var rec := fw.records[fw.requests[Replying(fw, j)]];
            rec.stage.Performed? && rec.req.msg.op == BatchOp(fw.batches[j])
  {
    ReplyFinds(fw, j);
    assert BatchOk(fw, j);
    assert ItemOk(fw, fw.batches[j], fw.batches[j].replied);
  }

  // ---------- steps of the dispatcher ----------

  lemma QuietStep(cfg: Setup, s: State, f: nat, fw': Forwarder)
    requires Inv(cfg, s) && f < |s.fw| && ForwarderOk(cfg, fw') && fw'.records == s.fw[f].records
    requires SameFiling(s.fw[f], fw') && SameCount(s.fw[f], fw')
    ensures Inv(cfg, SetForwarder(s, f, fw'))
  {
    hide Ok, Tables, Owners, Conversations, FilesOk, Handles, SignOffs, Barriers, ShutdownThreshold, ForwarderOf;
    var s' := SetForwarder(s, f, fw');
    forall d | 0 <= d < |s'.cl| ensures IsClient(cfg, s', d) { assert IsClient(cfg, s, d); }
    forall d | 0 <= d < |s.cl| ensures Same(cfg, s, s', d) { assert IsClient(cfg, s, d); }
    NoOneMoved(cfg, s, s');
    ForwarderKeepsTables(cfg, s, s', f);
  }

  lemma NoOneMoved(cfg: Setup, s: State, s': State)
    requires Inv(cfg, s) && Sized(cfg, s') && s'.cl == s.cl && s'.files == s.files
    requires forall d :: 0 <= d < |s.cl| ==> Same(cfg, s, s', d)
    requires forall g :: 0 <= g < |s.fw| ==>
               s'.fw[g].records == s.fw[g].records && SameFiling(s.fw[g], s'.fw[g]) && SameCount(s.fw[g], s'.fw[g])
    ensures Conversations(cfg, s') && Owners(cfg, s') && FilesOk(cfg, s') && Handles(cfg, s') && SignOffs(cfg, s')
            && Barriers(cfg, s')
  {
    hide Ok, Tables, FilesOk, Handles, SignOffs, SameView, SameOpen, SameWrites, Barriers, ShutdownThreshold,
      ForwarderOf;
    ThresholdIsPositive(cfg.worldSize, cfg.forwarders);
    assert Same(cfg, s, s', 0) && ClientOk(cfg, s, 0);
    ViewOfItself(cfg, s.cl[0], RecOf(cfg, s, 0));
    ViewParts(cfg, s.cl[0], RecOf(cfg, s, 0), s'.cl[0], RecOf(cfg, s', 0));
    ConversationsKept(cfg, s, s', 0);
    FilesKept(cfg, s, s', 0);
    HandlesKept(cfg, s, s', 0);
    SignOffsKept(cfg, s, s', 0);
    BarriersKept(cfg, s, s', 0);
    forall g, b | 0 <= g < |s'.fw| && 0 <= b < |s'.fw[g].records| ensures OwnerOk(cfg, s', g, b) {
      assert OwnerOk(cfg, s, g, b);
    }
  }

  lemma ViewOfItself(cfg: Setup, cl: Client, rec: Record)
    ensures SameView(cfg, cl, rec, cl, rec)
  {
  }

  lemma DispatcherStep(cfg: Setup, s: State, l: Label)
    requires Inv(cfg, s) && Enabled(cfg, s, l) && (l.Pop? || l.Lookup? || l.Gather?)
    ensures Inv(cfg, Do(cfg, s, l))
  {
    hide Inv, Tables, Ok, Gathered, ShutdownThreshold, ForwarderOf;
    TablesOf(cfg, s, l.f);
    var fw := s.fw[l.f];
    match l
    case Pop(f) => PopOk(fw); QuietStep(cfg, s, f, Forwarding.Pop(fw));
    case Lookup(f) => LookupOk(fw); QuietStep(cfg, s, f, Forwarding.Lookup(fw));
    case Gather(f) => GatherOk(fw); QuietStep(cfg, s, f, Forwarding.Gather(fw));
  }

  // ---------- steps of a client ----------

  /** Without a record, a conversation does not depend on one. */
  lemma NoRecord(cfg: Setup, c: nat, cl: Client, rec: Record, rec': Record)
    requires !cl.cur.Got?
    ensures Ok(cfg, c, cl, rec) == Ok(cfg, c, cl, rec') && SameView(cfg, cl, rec, cl, rec')
  {
  }

  lemma SameViewChain(cfg: Setup, a: Client, r: Record, b: Client, r': Record, r'': Record)
    requires SameView(cfg, a, r, b, r') && SameView(cfg, b, r', b, r'')
    ensures SameView(cfg, a, r, b, r'')
  {
  }

  /** A client moves; its request, if it had one, is still its request or has been answered. */
  lemma ClientStep(cfg: Setup, s: State, c: nat, cl: Client)
    requires Inv(cfg, s) && IsClient(cfg, s, c)
    requires Ok(cfg, c, cl, RecOf(cfg, s, c)) && SameView(cfg, s.cl[c], RecOf(cfg, s, c), cl, RecOf(cfg, s, c))
    requires cl.cur == s.cl[c].cur || (!cl.cur.Got? && !Live(RecOf(cfg, s, c)))
    requires Barriers(cfg, SetClient(s, c, cl))
    ensures Inv(cfg, SetClient(s, c, cl))
  {
    hide Ok, Tables, SameView, SameOpen, SameWrites, FilesOk, Handles, SignOffs, Barriers, ShutdownThreshold,
      ForwarderOf;
    var s' := SetClient(s, c, cl);
    assert Sized(cfg, s') by {
      forall d | 0 <= d < |s'.cl| ensures IsClient(cfg, s', d) { assert IsClient(cfg, s, d); }
    }
    assert ClientOk(cfg, s, c);
    forall d | 0 <= d < |s.cl| && d != c ensures Same(cfg, s, s', d) { assert ClientOk(cfg, s, d); }
    if !cl.cur.Got? {
      NoRecord(cfg, c, cl, RecOf(cfg, s, c), RecOf(cfg, s', c));
      SameViewChain(cfg, s.cl[c], RecOf(cfg, s, c), cl, RecOf(cfg, s, c), RecOf(cfg, s', c));
    }
    ConversationsKept(cfg, s, s', c);
    ViewParts(cfg, s.cl[c], RecOf(cfg, s, c), s'.cl[c], RecOf(cfg, s', c));
    FilesKept(cfg, s, s', c);
    HandlesKept(cfg, s, s', c);
    SignOffsKept(cfg, s, s', c);
    ClientStepKeepsOwners(cfg, s, c, cl);
  }

  lemma ClientStepKeepsOwners(cfg: Setup, s: State, c: nat, cl: Client)
    requires Inv(cfg, s) && IsClient(cfg, s, c)
    requires cl.cur == s.cl[c].cur || !Live(RecOf(cfg, s, c))
    ensures Owners(cfg, SetClient(s, c, cl))
  {
    hide Ok, Tables, FilesOk, Handles, SignOffs, Barriers, FaultOk, ShutdownThreshold, ForwarderOf;
    var s' := SetClient(s, c, cl);
    forall g, b | 0 <= g < |s'.fw| && 0 <= b < |s'.fw[g].records| ensures OwnerOk(cfg, s', g, b) {
      assert OwnerOk(cfg, s, g, b);
    }
  }

  lemma OkOf(cfg: Setup, s: State, c: nat)
    requires Inv(cfg, s) && IsClient(cfg, s, c)
    ensures Ok(cfg, c, s.cl[c], RecOf(cfg, s, c)) && Barriers(cfg, s)
    ensures !s.cl[c].cur.Got? ==> !Live(RecOf(cfg, s, c))
  {
    hide Ok, Tables, ShutdownThreshold, ForwarderOf;
    assert ClientOk(cfg, s, c);
  }

  lemma GoStep(cfg: Setup, s: State, c: nat)
    requires Inv(cfg, s) && Enabled(cfg, s, Label.Go(c))
    ensures Inv(cfg, Do(cfg, s, Label.Go(c)))
  {
    hide Inv, SameView, SameOpen, SameWrites, Barriers, ShutdownThreshold, ForwarderOf;
    OkOf(cfg, s, c);
    var cl := Protocol.Go(cfg, c, s.cl[c]);
    GoKeeps(cfg, c, s.cl[c], RecOf(cfg, s, c));
    BarriersKept(cfg, s, SetClient(s, c, cl), c);
    ClientStep(cfg, s, c, cl);
  }

  /** Received data is accepted, except perhaps in a run that reads what it has not written. */
  lemma RecvStep(cfg: Setup, s: State, c: nat)
    requires Inv(cfg, s) && Enabled(cfg, s, Label.Recv(c))
    ensures Inv(cfg, Do(cfg, s, Label.Recv(c)))
  {
    hide Inv, SameView, SameOpen, SameWrites, Barriers, Ok, Match, ShutdownThreshold, ForwarderOf;
    OkOf(cfg, s, c);
    var cl := Protocol.Recv(cfg, c, s.cl[c]);
    RecvKeeps(cfg, c, s.cl[c], RecOf(cfg, s, c));
    if DataAccepted(cfg, c, s.cl[c]) {
      BarriersKept(cfg, s, SetClient(s, c, cl), c);
      ClientStep(cfg, s, c, cl);
    } else {
      RecvSize(cfg, c, s.cl[c], RecOf(cfg, s, c));
      SizeOf(cfg, s);
      assert Differs(cfg);
      FaultStep(cfg, s, Do(cfg, s, Label.Recv(c)));
    }
  }

  lemma SizeOf(cfg: Setup, s: State)
    requires Inv(cfg, s)
    ensures |s.cl| == cfg.Clients() && |s.fw| == cfg.forwarders
  {
  }

  lemma RecvSize(cfg: Setup, c: nat, cl: Client, rec: Record)
    requires Ok(cfg, c, cl, rec) && CanRecv(cl) && cl.pc == WaitData
    ensures |BytesIn(Content(cl.toClient, Awaited(cl)))| == cfg.requestSize
  {
    hide Match, ShutdownThreshold, ForwarderOf;
    FirstMatches(cl.toClient, Awaited(cl));
  }

  lemma FaultStep(cfg: Setup, s: State, s': State)
    requires Inv(cfg, s) && s' == Crash(s, ValidationFailed) && cfg.validate && !cfg.write && Differs(cfg)
    ensures Inv(cfg, s')
  {
    hide Ok, Tables, FilesOk, Handles, SignOffs, Barriers, Conversations, ShutdownThreshold, ForwarderOf;
    forall d | 0 <= d < |s'.cl| ensures IsClient(cfg, s', d) { assert IsClient(cfg, s, d); }
    forall d | 0 <= d < |s.cl| ensures Same(cfg, s, s', d) { assert IsClient(cfg, s, d); }
    NoOneMoved(cfg, s, s');
  }

  lemma CrossStep(cfg: Setup, s: State, c: nat)
    requires Inv(cfg, s) && Enabled(cfg, s, Label.Cross(c))
    ensures Inv(cfg, Do(cfg, s, Label.Cross(c)))
  {
    hide Inv, SameView, SameOpen, SameWrites, Ok, ShutdownThreshold, ForwarderOf;
    OkOf(cfg, s, c);
    var cl := Protocol.Cross(cfg, s.cl[c]);
    CrossKeeps(cfg, c, s.cl[c], RecOf(cfg, s, c));
    CrossCur(cfg, c, s.cl[c], RecOf(cfg, s, c));
    var s' := SetClient(s, c, cl);
    forall d, e | 0 <= d < |s'.cl| && 0 <= e < |s'.cl| ensures Together(cfg, s'.cl[d], s'.cl[e]) {
      assert Together(cfg, s.cl[d], s.cl[e]) && Together(cfg, s.cl[d], s.cl[c]) && Together(cfg, s.cl[c], s.cl[e]);
    }
    ClientStep(cfg, s, c, cl);
  }

  lemma CrossCur(cfg: Setup, c: nat, cl: Client, rec: Record)
    requires Ok(cfg, c, cl, rec) && cl.pc == AtBarrier
    ensures cl.cur == Nothing
  {
  }

  // ---------- the listener ----------

  lemma ListenStep(cfg: Setup, s: State, c: nat)
    requires Inv(cfg, s) && Enabled(cfg, s, Label.Listen(c))
    ensures Inv(cfg, Do(cfg, s, Label.Listen(c)))
  {
    hide Inv, SameView, SameOpen, SameWrites, Ok, Match, Tables, ShutdownThreshold, ForwarderOf;
    OkOf(cfg, s, c);
    var f := cfg.Home(c);
    TablesOf(cfg, s, f);
    var id := NextId(s.fw[f].globalId);
    assert FIRST_ID <= id by { NextIsIdOf(|s.fw[f].records|); IdsAreNoTags(|s.fw[f].records| + 1); GlobalId(s.fw[f]); }
    ListenKeeps(cfg, c, s.cl[c], RecOf(cfg, s, c), |s.fw[f].records|, id);
    match Content(s.cl[c].toServer, TAG_REQUEST)
    case Ask(msg) => AskStep(cfg, s, c, f, Listened(s.cl[c], |s.fw[f].records|), msg);
    case SignOff => SignOffStep(cfg, s, c, f, Listened(s.cl[c], |s.fw[f].records|));
  }

  lemma GlobalId(fw: Forwarder)
    requires Tables(fw)
    ensures fw.globalId == IdOf(|fw.records|)
  {
  }

  /** Clients other than the one that was heard see only that records may have been added. */
  lemma OthersUnheard(cfg: Setup, s: State, s': State, d: nat)
    requires IsClient(cfg, s, d) && IsClient(cfg, s', d) && ClientOk(cfg, s, d) && s'.cl[d] == s.cl[d]
    requires s.fw[cfg.Home(d)].records <= s'.fw[cfg.Home(d)].records
    ensures Same(cfg, s, s', d)
  {
    hide Ok;
  }

  lemma AskStep(cfg: Setup, s: State, c: nat, f: nat, cl: Client, msg: Message)
    requires Inv(cfg, s) && IsClient(cfg, s, c) && f == cfg.Home(c) && s.cl[c].cur == Sent
    requires cl.cur == Got(|s.fw[f].records|) && cl.phase == s.cl[c].phase && cl.pc == s.cl[c].pc
    requires Window(Accept(s.fw[f], c, msg))
    requires var rec := NewRecord(NextId(s.fw[f].globalId), c, msg);
             Ok(cfg, c, cl, rec) && SameView(cfg, s.cl[c], RecOf(cfg, s, c), cl, rec)
    ensures Inv(cfg, SetForwarder(SetClient(s, c, cl), f, Accept(s.fw[f], c, msg)))
  {
    hide SameView, SameOpen, SameWrites, Ok, Window, Tables, FilesOk, Handles, SignOffs, Barriers, ShutdownThreshold,
      ForwarderOf;
    var s' := SetForwarder(SetClient(s, c, cl), f, Accept(s.fw[f], c, msg));
    AcceptOk(s.fw[f], c, msg);
    ForwarderKeepsTables(cfg, s, s', f);
    assert Sized(cfg, s') by {
      forall d | 0 <= d < |s'.cl| ensures IsClient(cfg, s', d) { assert IsClient(cfg, s, d); }
    }
    forall d | 0 <= d < |s.cl| && d != c ensures Same(cfg, s, s', d) {
      assert ClientOk(cfg, s, d);
      OthersUnheard(cfg, s, s', d);
    }
    ConversationsKept(cfg, s, s', c);
    ViewParts(cfg, s.cl[c], RecOf(cfg, s, c), s'.cl[c], RecOf(cfg, s', c));
    FilesKept(cfg, s, s', c);
    HandlesKept(cfg, s, s', c);
    SignOffsKept(cfg, s, s', c);
    BarriersKept(cfg, s, s', c);
    forall g, b | 0 <= g < |s'.fw| && 0 <= b < |s'.fw[g].records| ensures OwnerOk(cfg, s', g, b) {
      if b < |s.fw[g].records| { assert OwnerOk(cfg, s, g, b); }
    }
  }

  /** The clients that a forwarder serves are as many as its threshold. */
  lemma ServedBy(cfg: Setup, f: nat)
    requires f < cfg.forwarders
    ensures forall c: nat | c < cfg.Clients() :: cfg.Home(c) == f <==>
            c in Interval(f * cfg.Threshold(), cfg.Threshold())
  {
    hide Interval;
    forall c: nat | c < cfg.Clients()
      ensures cfg.Home(c) == f <==> c in Interval(f * cfg.Threshold(), cfg.Threshold())
    {
      ServedIsBlock(f, c + cfg.forwarders, cfg.worldSize, cfg.forwarders);
    }
  }

  /** While a client has not signed off, its forwarder has not counted its threshold. */
  lemma NotAllGone(cfg: Setup, s: State, f: nat)
    requires Sized(cfg, s) && f < cfg.forwarders
    ensures |Gone(cfg, s, f)| <= cfg.Threshold()
    ensures |Gone(cfg, s, f)| == cfg.Threshold() ==>
              forall c :: 0 <= c < |s.cl| && cfg.Home(c) == f ==> SignedOff(s.cl[c])
  {
    hide Interval;
    var all := Interval(f * cfg.Threshold(), cfg.Threshold());
    ServedBy(cfg, f);
    assert Gone(cfg, s, f) <= all;
    SubsetSize(Gone(cfg, s, f), all);
    if |Gone(cfg, s, f)| == cfg.Threshold() {
      forall c | 0 <= c < |s.cl| && cfg.Home(c) == f
        ensures SignedOff(s.cl[c])
      {
        assert c in all && c in Gone(cfg, s, f);
      }
    }
  }

  lemma SubsetSize(a: set<nat>, b: set<nat>)
    requires a <= b
    ensures |a| <= |b| && (|a| == |b| ==> a == b)
  {
    assert b == a + (b - a);
    assert |b| == |a| + |b - a|;
  }

  lemma SignOffStep(cfg: Setup, s: State, c: nat, f: nat, cl: Client)
    requires Inv(cfg, s) && IsClient(cfg, s, c) && f == cfg.Home(c) && s.cl[c].cur == Nothing
    requires cl.cur == Nothing && cl.phase == s.cl[c].phase && cl.pc == s.cl[c].pc
    requires Ok(cfg, c, cl, RecOf(cfg, s, c)) && !SignedOff(s.cl[c]) && SignedOff(cl)
    requires SameOpen(s.cl[c], RecOf(cfg, s, c), cl, RecOf(cfg, s, c))
             && SameWrites(cfg, s.cl[c], RecOf(cfg, s, c), cl, RecOf(cfg, s, c))
    ensures Inv(cfg, SetForwarder(SetClient(s, c, cl), f, CountSignOff(s.fw[f], cfg.Threshold())))
  {
    hide Ok, Tables, SameOpen, SameWrites, Conversation.SignedOff, FilesOk, Handles, SignOffs, Barriers,
      ShutdownThreshold, ForwarderOf;
    var fw' := CountSignOff(s.fw[f], cfg.Threshold());
    var s' := SetForwarder(SetClient(s, c, cl), f, fw');
    ElsewhereKeeps(s.fw[f], fw');
    ForwarderKeepsTables(cfg, s, s', f);
    assert Sized(cfg, s') by {
      forall d | 0 <= d < |s'.cl| ensures IsClient(cfg, s', d) { assert IsClient(cfg, s, d); }
    }
    forall d | 0 <= d < |s.cl| && d != c ensures Same(cfg, s, s', d) {
      assert ClientOk(cfg, s, d);
      OthersUnheard(cfg, s, s', d);
    }
    ConversationsKept(cfg, s, s', c);
    FilesKept(cfg, s, s', c);
    HandlesKept(cfg, s, s', c);
    BarriersKept(cfg, s, s', c);
    SignOffCounts(cfg, s, s', c, f, fw');
    forall g, b | 0 <= g < |s'.fw| && 0 <= b < |s'.fw[g].records|
      ensures OwnerOk(cfg, s', g, b)
    {
      assert OwnerOk(cfg, s, g, b);
    }
  }

  /** Those who have signed off at a forwarder, with one more at that of client c. */
  lemma GoneGains(cfg: Setup, s: State, s': State, c: nat, g: nat)
    requires Sized(cfg, s) && Sized(cfg, s') && OnlyClient(cfg, s, s', c)
    requires !SignedOff(s.cl[c]) && SignedOff(s'.cl[c])
    ensures c !in Gone(cfg, s, g) && Gone(cfg, s', g) == Gone(cfg, s, g) + if g == cfg.Home(c) then {c} else {}
  {
    hide Conversation.SignedOff, Config.Home;
    forall d | 0 <= d < |s.cl| && d != c
      ensures d in Gone(cfg, s', g) <==> d in Gone(cfg, s, g)
    {
      assert Same(cfg, s, s', d);
    }
  }

  lemma SignOffCounts(cfg: Setup, s: State, s': State, c: nat, f: nat, fw': Forwarder)
    requires Sized(cfg, s) && Sized(cfg, s') && SignOffs(cfg, s) && OnlyClient(cfg, s, s', c)
    requires !SignedOff(s.cl[c]) && SignedOff(s'.cl[c])
    requires f < |s.fw| && f == cfg.Home(c) && fw' == CountSignOff(s.fw[f], cfg.Threshold()) && s'.fw == s.fw[f := fw']
    ensures SignOffs(cfg, s')
  {
    hide Conversation.SignedOff, ShutdownThreshold, ForwarderOf, Gone, OnlyClient;
    forall g | 0 <= g < |s'.fw| ensures CountOk(cfg, s', g) {
      assert CountOk(cfg, s, g);
      GoneGains(cfg, s, s', c, g);
      if g == f { NotAllGone(cfg, s', f); }
    }
  }

  // ---------- opening and closing ----------

  /** Client c of forwarder f begins or ends its use of a file; the tables of all other forwarders stay. */
  ghost predicate FilingOf(cfg: Setup, s: State, s': State, c: nat, f: nat, fw': Forwarder)
    requires Sized(cfg, s) && Sized(cfg, s')
  {
    && f < |s.fw| && OnlyClient(cfg, s, s', c) && cfg.Home(c) == f && SameFiling(fw', s'.fw[f])
    && (forall g :: 0 <= g < |s.fw| && g != f ==> SameFiling(s.fw[g], s'.fw[g]))
  }

  lemma OpenHandles(cfg: Setup, s: State, s': State, c: nat, f: nat, fd: int, fw': Forwarder)
    requires Sized(cfg, s) && Sized(cfg, s') && Handles(cfg, s) && FilingOf(cfg, s, s', c, f, fw')
    requires fd !in s.fw[f].descriptors && fw' == Forwarding.Open(s.fw[f], cfg.FileFor(c), fd)
    requires !HasOpen(s.cl[c], RecOf(cfg, s, c)) && HasOpen(s'.cl[c], RecOf(cfg, s', c))
    requires Conversation.Handle(s'.cl[c], RecOf(cfg, s', c)) == fw'.handles[cfg.FileFor(c)].fh
    ensures Handles(cfg, s')
  {
    hide HasOpen, Conversation.Handle, RecOf, Users, KnowsHandle, HandleOk, ShutdownThreshold, ForwarderOf;
    forall g, x | 0 <= g < |s'.fw| ensures HandleOk(cfg, s', g, x) {
      assert HandleOk(cfg, s, g, x);
      OpenKeepsHandle(cfg, s, s', c, f, fd, fw', g, x);
    }
    forall d | 0 <= d < |s'.cl| ensures KnowsHandle(cfg, s', d) {
      assert KnowsHandle(cfg, s, d);
      OpenKeepsKnown(cfg, s, s', c, f, fd, fw', d);
    }
    assert HandleOk(cfg, s, f, cfg.FileFor(c));
    forall g, x | 0 <= g < |s'.fw| && x in s'.fw[g].descriptors ensures DescriptorOk(s'.fw[g], x) {
      if x in s.fw[g].descriptors { assert DescriptorOk(s.fw[g], x); }
    }
  }

  lemma OpenKeepsHandle(cfg: Setup, s: State, s': State, c: nat, f: nat, fd: int, fw': Forwarder, g: nat, x: File)
    requires Sized(cfg, s) && Sized(cfg, s') && FilingOf(cfg, s, s', c, f, fw') && g < |s.fw| && HandleOk(cfg, s, g, x)
    requires fd !in s.fw[f].descriptors && fw' == Forwarding.Open(s.fw[f], cfg.FileFor(c), fd)
    requires !HasOpen(s.cl[c], RecOf(cfg, s, c)) && HasOpen(s'.cl[c], RecOf(cfg, s', c))
    ensures HandleOk(cfg, s', g, x)
  {
    hide HasOpen, Conversation.Handle, RecOf, Users, ShutdownThreshold, ForwarderOf;
    if g == f && x == cfg.FileFor(c) {
      forall d | 0 <= d < |s.cl| && d != c ensures Alike(cfg, s, s', d) { assert Same(cfg, s, s', d); }
      UsersGain(cfg, s, s', c, f, x);
    } else {
      SameUsers(cfg, s, s', c, g, x);
    }
  }

  lemma OpenKeepsKnown(cfg: Setup, s: State, s': State, c: nat, f: nat, fd: int, fw': Forwarder, d: nat)
    requires Sized(cfg, s) && Sized(cfg, s') && FilingOf(cfg, s, s', c, f, fw') && d < |s.cl| && KnowsHandle(cfg, s, d)
    requires fw' == Forwarding.Open(s.fw[f], cfg.FileFor(c), fd)
    requires Conversation.Handle(s'.cl[c], RecOf(cfg, s', c)) == fw'.handles[cfg.FileFor(c)].fh
    ensures KnowsHandle(cfg, s', d)
  {
    hide HasOpen, Conversation.Handle, RecOf, ShutdownThreshold, ForwarderOf;
    if d != c { assert Same(cfg, s, s', d); }
  }

  lemma UsersGain(cfg: Setup, s: State, s': State, c: nat, f: nat, file: File)
    requires Sized(cfg, s) && Sized(cfg, s') && c < |s.cl| && cfg.Home(c) == f && cfg.FileFor(c) == file
    requires forall d :: 0 <= d < |s.cl| && d != c ==> Alike(cfg, s, s', d)
    requires !HasOpen(s.cl[c], RecOf(cfg, s, c)) && HasOpen(s'.cl[c], RecOf(cfg, s', c))
    ensures Users(cfg, s', f, file) == Users(cfg, s, f, file) + {c}
    ensures |Users(cfg, s', f, file)| == |Users(cfg, s, f, file)| + 1
  {
    hide HasOpen, RecOf, ShutdownThreshold, ForwarderOf;
    forall d | 0 <= d < |s.cl| && d != c ensures d in Users(cfg, s', f, file) <==> d in Users(cfg, s, f, file) {
      assert Alike(cfg, s, s', d);
    }
    assert c !in Users(cfg, s, f, file) && c in Users(cfg, s', f, file);
    assert Users(cfg, s', f, file) == Users(cfg, s, f, file) + {c};
  }

  lemma InUsers(cfg: Setup, s: State, d: nat)
    requires IsClient(cfg, s, d) && HasOpen(s.cl[d], RecOf(cfg, s, d))
    ensures |Users(cfg, s, cfg.Home(d), cfg.FileFor(d))| > 0
  {
    hide HasOpen, RecOf, ShutdownThreshold, ForwarderOf;
    assert d in Users(cfg, s, cfg.Home(d), cfg.FileFor(d));
  }

  lemma CloseHandles(cfg: Setup, s: State, s': State, c: nat, f: nat, fw': Forwarder)
    requires Sized(cfg, s) && Sized(cfg, s') && Handles(cfg, s) && FilingOf(cfg, s, s', c, f, fw')
    requires cfg.FileFor(c) in s.fw[f].handles && fw' == Forwarding.Close(s.fw[f], cfg.FileFor(c))
    requires HasOpen(s.cl[c], RecOf(cfg, s, c)) && !HasOpen(s'.cl[c], RecOf(cfg, s', c))
    ensures Handles(cfg, s')
  {
    hide HasOpen, Conversation.Handle, RecOf, Users, ShutdownThreshold, ForwarderOf;
    var file := cfg.FileFor(c);
    assert HandleOk(cfg, s, f, file);
    UsersGain(cfg, s', s, c, f, file) by {
      forall d | 0 <= d < |s.cl| && d != c ensures Alike(cfg, s', s, d) { assert Same(cfg, s, s', d); }
    }
    forall g, x | 0 <= g < |s'.fw| ensures HandleOk(cfg, s', g, x) {
      assert HandleOk(cfg, s, g, x);
      if g != f || x != file { SameUsers(cfg, s, s', c, g, x); }
    }
    forall d | 0 <= d < |s'.cl| ensures KnowsHandle(cfg, s', d) {
      assert KnowsHandle(cfg, s, d);
      if d != c {
        assert Same(cfg, s, s', d);
        if HasOpen(s.cl[d], RecOf(cfg, s, d)) && cfg.Home(d) == f && cfg.FileFor(d) == file { InUsers(cfg, s', d); }
      }
    }
    forall g, x | 0 <= g < |s'.fw| && x in s'.fw[g].descriptors ensures DescriptorOk(s'.fw[g], x) {
      assert DescriptorOk(s.fw[g], x);
    }
  }

  lemma AskedFile(cfg: Setup, c: nat, cl: Client, rec: Record)
    requires Ok(cfg, c, cl, rec) && cl.cur.Got?
    ensures rec.req.msg.file == cfg.FileFor(c)
  {
    hide Offset;
  }

  /** All parts of the invariant but the one about open files, for a step of a handler. */
  lemma FilingStep(cfg: Setup, s: State, s': State, f: nat, a: nat, fw1: Forwarder, stage: Stage)
    requires Inv(cfg, s) && HasRecord(s, f, a) && s.fw[f].records[a].stage == Held
    requires fw1 == s.fw[f].(handles := fw1.handles, descriptors := fw1.descriptors) && (stage.Opened? || stage.Closed?)
    requires s' == SetForwarder(s, f, SetStage(fw1, a, stage))
    requires var rec := s.fw[f].records[a];
             var c := rec.req.rank;
             && Ok(cfg, c, s.cl[c], rec.(stage := stage))
             && SameWrites(cfg, s.cl[c], rec, s.cl[c], rec.(stage := stage))
    ensures Sized(cfg, s') && Conversations(cfg, s') && Owners(cfg, s') && AllTables(cfg, s') && FilesOk(cfg, s')
    ensures SignOffs(cfg, s') && Barriers(cfg, s') && FaultOk(cfg, s')
    ensures FilingOf(cfg, s, s', s.fw[f].records[a].req.rank, f, fw1)
    ensures var c := s.fw[f].records[a].req.rank;
            RecOf(cfg, s, c) == s.fw[f].records[a] && RecOf(cfg, s', c) == s'.fw[f].records[a]
  {
    hide Ok, Tables, SameView, SameOpen, SameWrites, Conversations, FilesOk, Handles, SignOffs, Barriers, Owners,
      ShutdownThreshold, ForwarderOf;
    var c := s.fw[f].records[a].req.rank;
    TablesOf(cfg, s, f);
    ElsewhereKeeps(s.fw[f], fw1);
    SetRecordKeeps(fw1, a, fw1.records[a].(stage := stage));
    NoAnswerYet(cfg, s, f, a);
    OneRecordOnlyClient(cfg, s, s', f, a);
    OneRecordKeepsOwners(cfg, s, s', f, a);
    ConversationsKept(cfg, s, s', c);
    ForwarderKeepsTables(cfg, s, s', f);
    FilesKept(cfg, s, s', c);
    SignOffsKept(cfg, s, s', c);
    BarriersKept(cfg, s, s', c);
  }

  lemma ServeOpenStep(cfg: Setup, s: State, f: nat, a: nat, fd: int)
    requires Inv(cfg, s) && Enabled(cfg, s, Label.Serve(f, a, fd)) && s.fw[f].records[a].req.msg.op == OPEN
    ensures Inv(cfg, Do(cfg, s, Label.Serve(f, a, fd)))
  {
    hide Ok, Tables, Conversations, FilesOk, Handles, SignOffs, Barriers, Owners, FaultOk, SameOpen, SameWrites,
      HasOpen, Conversation.Handle, ShutdownThreshold, ForwarderOf;
    var s' := Do(cfg, s, Label.Serve(f, a, fd));
    OwnerOf(cfg, s, f, a);
    var rec := s.fw[f].records[a];
    var c := rec.req.rank;
    AskedFile(cfg, c, s.cl[c], rec);
    var fw1 := Forwarding.Open(s.fw[f], cfg.FileFor(c), fd);
    var fh := fw1.handles[cfg.FileFor(c)].fh;
    OpenKeeps(cfg, c, s.cl[c], rec, fh);
    FilingStep(cfg, s, s', f, a, fw1, Opened(fh));
    OpenHandles(cfg, s, s', c, f, fd, fw1);
  }

  /** A close finds the entry of its file. */
  lemma ServeCloseStep(cfg: Setup, s: State, f: nat, a: nat, fd: int)
    requires Inv(cfg, s) && Enabled(cfg, s, Label.Serve(f, a, fd)) && s.fw[f].records[a].req.msg.op == CLOSE
    ensures Inv(cfg, Do(cfg, s, Label.Serve(f, a, fd)))
  {
    hide Ok, Tables, Conversations, FilesOk, SignOffs, Barriers, Owners, FaultOk, SameOpen, SameWrites, HasOpen,
      Conversation.Handle, ShutdownThreshold, ForwarderOf;
    OwnerOf(cfg, s, f, a);
    var rec := s.fw[f].records[a];
    var c := rec.req.rank;
    AskedFile(cfg, c, s.cl[c], rec);
    CloseKeeps(cfg, c, s.cl[c], rec);
    assert KnowsHandle(cfg, s, c);
    var fw1 := Forwarding.Close(s.fw[f], cfg.FileFor(c));
    var s' := Do(cfg, s, Label.Serve(f, a, fd));
    FilingStep(cfg, s, s', f, a, fw1, Closed);
    CloseHandles(cfg, s, s', c, f, fw1);
  }

  // ---------- reading and writing ----------

  /** A write does not change what is read elsewhere. */
  lemma WriteElsewhere(files: Files, file: File, o: int, data: seq<char>, file': File, o': int, size: nat)
    requires file' == file ==> o + |data| <= o' || o' + size <= o
    ensures ReadAt(WriteAt(files, file, o, data), file', o', size) == ReadAt(files, file', o', size)
  {
  }

  lemma PlacesApart(cfg: Setup, c: nat, i: nat, d: nat, x: nat)
    requires c < cfg.Clients() && d < cfg.Clients() && i < cfg.Rounds() && x < cfg.Rounds() && (c, i) != (d, x)
    requires cfg.FileFor(c) == cfg.FileFor(d)
    ensures cfg.Place(c, i) + cfg.requestSize <= cfg.Place(d, x) || cfg.Place(d, x) + cfg.requestSize <= cfg.Place(c, i)
  {
    hide Offset;
    OffsetIsNat(cfg.layout, cfg.Clients(), cfg.Rounds(), cfg.requestSize, c, i);
    OffsetIsNat(cfg.layout, cfg.Clients(), cfg.Rounds(), cfg.requestSize, d, x);
    if cfg.Place(c, i) <= cfg.Place(d, x) {
      TilesAreDisjoint(cfg.layout, cfg.Clients(), cfg.Rounds(), cfg.requestSize, d, x, c, i, cfg.Place(d, x));
    } else {
      TilesAreDisjoint(cfg.layout, cfg.Clients(), cfg.Rounds(), cfg.requestSize, c, i, d, x, cfg.Place(c, i));
    }
  }

  lemma WriteKeepsOtherTile(cfg: Setup, files: Files, c: nat, i: nat, d: nat, x: nat, data: seq<char>)
    requires c < cfg.Clients() && d < cfg.Clients() && i < cfg.Rounds() && x < cfg.Rounds() && (c, i) != (d, x)
    requires |data| == cfg.requestSize && TileHolds(cfg, files, d, x)
    ensures TileHolds(cfg, WriteAt(files, cfg.FileFor(c), cfg.Place(c, i), data), d, x)
  {
    hide Offset, ReadAt, WriteAt;
    if cfg.FileFor(d) == cfg.FileFor(c) { PlacesApart(cfg, c, i, d, x); }
    WriteElsewhere(files, cfg.FileFor(c), cfg.Place(c, i), data, cfg.FileFor(d), cfg.Place(d, x), cfg.requestSize);
  }

  lemma WriteMakesTile(cfg: Setup, files: Files, c: nat, i: nat)
    requires c < cfg.Clients() && i < cfg.Rounds()
    ensures TileHolds(cfg, WriteAt(files, cfg.FileFor(c), cfg.Place(c, i), cfg.Fill(c)), c, i)
  {
    hide Offset;
    assert ReadAt(WriteAt(files, cfg.FileFor(c), cfg.Place(c, i), cfg.Fill(c)), cfg.FileFor(c), cfg.Place(c, i),
      cfg.requestSize) == cfg.Fill(c);
  }

  lemma AskedPlace(cfg: Setup, c: nat, cl: Client, rec: Record)
    requires Ok(cfg, c, cl, rec) && cl.cur.Got? && rec.stage.Released?
    ensures cl.i < cfg.Rounds() && rec.req.msg.offset == cfg.Place(c, cl.i) && rec.req.msg.size == cfg.requestSize
    ensures rec.req.msg.op == READ || rec.req.msg.op == WRITE
    ensures rec.req.msg.op == WRITE ==> cfg.write && rec.buffer == cfg.Fill(c)
    ensures rec.req.msg.op == READ && cfg.write ==> Wrote(cfg, cl, rec, cl.i)
  {
    hide Offset;
  }

  /** Every read or write runs on an open descriptor of the file of the client that asked for it. */
  lemma PerformsOnOpenFile(cfg: Setup, s: State, f: nat, j: nat)
    requires Inv(cfg, s) && Enabled(cfg, s, Label.Perform(f, j))
    ensures var item := Performing(s.fw[f], j);
            var rec := s.fw[f].records[item.addr];
            var c := rec.req.rank;
            && IsClient(cfg, s, c) && cfg.Home(c) == f && s.cl[c].cur == Got(item.addr)
            && RecOf(cfg, s, c) == rec && Ok(cfg, c, s.cl[c], rec)
            && rec.req == item.req && rec.stage == Released(s.fw[f].batches[j].start + s.fw[f].batches[j].performed)
            && s.fw[f].batches[j].items != [] && BatchOp(s.fw[f].batches[j]) == item.req.msg.op
            && item.req.msg.handle in s.fw[f].descriptors && s.fw[f].descriptors[item.req.msg.handle] == cfg.FileFor(c)
  {
    hide Ok, Conversations, FilesOk, SignOffs, Barriers, Owners, FaultOk, HasOpen, Conversation.Handle, Users,
      ShutdownThreshold, ForwarderOf;
    TablesOf(cfg, s, f);
    PerformFindsIn(s.fw[f], j);
    PerformingOp(s.fw[f], j);
    var a := Performing(s.fw[f], j).addr;
    OwnerOf(cfg, s, f, a);
    var rec := s.fw[f].records[a];
    var c := rec.req.rank;
    HandleInRequest(cfg, c, s.cl[c], rec);
    assert KnowsHandle(cfg, s, c) && HandleOk(cfg, s, f, cfg.FileFor(c));
  }

  lemma HandleInRequest(cfg: Setup, c: nat, cl: Client, rec: Record)
    requires Ok(cfg, c, cl, rec) && cl.cur.Got? && rec.stage.Released?
    ensures HasOpen(cl, rec) && Conversation.Handle(cl, rec) == rec.req.msg.handle
  {
    hide Offset;
  }

  lemma PerformingOp(fw: Forwarder, j: nat)
    requires Tables(fw) && CanPerform(fw, j)
    ensures fw.batches[j].items != [] && BatchOp(fw.batches[j]) == Performing(fw, j).req.msg.op
  {
    assert BatchOk(fw, j);
    assert ItemOk(fw, fw.batches[j], fw.batches[j].performed);
  }

  lemma ReadStep(cfg: Setup, s: State, f: nat, j: nat)
    requires Inv(cfg, s) && Enabled(cfg, s, Label.Perform(f, j)) && Performing(s.fw[f], j).req.msg.op == READ
    ensures Inv(cfg, Do(cfg, s, Label.Perform(f, j)))
  {
    hide Inv, Ok, Tables, HasOpen, Conversation.Handle, SameOpen, SignedOff, ShutdownThreshold, ForwarderOf;
    PerformsOnOpenFile(cfg, s, f, j);
    var s' := Do(cfg, s, Label.Perform(f, j));
    var a := Performing(s.fw[f], j).addr;
    var rec := s.fw[f].records[a];
    var c := rec.req.rank;
    var data := ReadAt(s.files, cfg.FileFor(c), rec.req.msg.offset, rec.req.msg.size);
    AskedPlace(cfg, c, s.cl[c], rec);
    assert Good(cfg, c, s.cl[c].i, data) by {
      if cfg.write { WrittenHolds(cfg, s, c, s.cl[c].i); } else { NothingWritten(cfg, s); }
    }
    Conversation.PerformKeeps(cfg, c, s.cl[c], rec, data);
    TablesOf(cfg, s, f);
    PerformOk(s.fw[f], j, data);
    NoAnswerYet(cfg, s, f, a);
    RecordStep(cfg, s, s', f, a);
  }

  lemma WrittenHolds(cfg: Setup, s: State, c: nat, x: nat)
    requires Inv(cfg, s) && IsClient(cfg, s, c) && x < cfg.Rounds() && Wrote(cfg, s.cl[c], RecOf(cfg, s, c), x)
    ensures TileHolds(cfg, s.files, c, x)
  {
    hide Ok, Tables, Wrote, TileHolds;
    assert WritesHold(cfg, s, c);
  }

  lemma NothingWritten(cfg: Setup, s: State)
    requires Inv(cfg, s) && !cfg.write
    ensures s.files == cfg.before
  {
  }

  lemma WriteStep(cfg: Setup, s: State, f: nat, j: nat)
    requires Inv(cfg, s) && Enabled(cfg, s, Label.Perform(f, j)) && Performing(s.fw[f], j).req.msg.op != READ
    ensures Inv(cfg, Do(cfg, s, Label.Perform(f, j)))
  {
    hide Ok, Tables, HasOpen, Conversation.Handle, SameOpen, SignedOff, Wrote, FilesOk, ShutdownThreshold, ForwarderOf;
    hide Conversations, Owners, Handles, SignOffs, Barriers, FaultOk;
    PerformsOnOpenFile(cfg, s, f, j);
    var s' := Do(cfg, s, Label.Perform(f, j));
    var a := Performing(s.fw[f], j).addr;
    var rec := s.fw[f].records[a];
    var c := rec.req.rank;
    AskedPlace(cfg, c, s.cl[c], rec);
    Conversation.PerformKeeps(cfg, c, s.cl[c], rec, rec.buffer);
    TablesOf(cfg, s, f);
    PerformOk(s.fw[f], j, rec.buffer);
    NoAnswerYet(cfg, s, f, a);
    RecordCore(cfg, s, s', f, a);
    OneRecordOnlyClient(cfg, s, s', f, a);
    WriteKeepsFiles(cfg, s, s', c, s.cl[c].i);
  }

  lemma WriteKeepsFiles(cfg: Setup, s: State, s': State, c: nat, i: nat)
    requires Sized(cfg, s) && Sized(cfg, s') && FilesOk(cfg, s) && OnlyClient(cfg, s, s', c) && i < cfg.Rounds()
             && cfg.write
    requires s'.files == WriteAt(s.files, cfg.FileFor(c), cfg.Place(c, i), cfg.Fill(c))
    requires forall x: nat | x < cfg.Rounds() ::
               Wrote(cfg, s'.cl[c], RecOf(cfg, s', c), x) ==> Wrote(cfg, s.cl[c], RecOf(cfg, s, c), x) || x == i
    ensures FilesOk(cfg, s')
  {
    hide Wrote, TileHolds, WriteAt, RecOf;
    forall d | 0 <= d < |s'.cl| ensures WritesHold(cfg, s', d) {
      assert WritesHold(cfg, s, d);
      if d != c { assert Same(cfg, s, s', d); }
      forall x: nat | x < cfg.Rounds() && Wrote(cfg, s'.cl[d], RecOf(cfg, s', d), x)
        ensures TileHolds(cfg, s'.files, d, x)
      {
        if (c, i) == (d, x) { WriteMakesTile(cfg, s.files, c, i); }
        else { WriteKeepsOtherTile(cfg, s.files, c, i, d, x, cfg.Fill(c)); }
      }
    }
  }
}
