/** What holds in every reachable state of the pipeline, part by part, and what keeps each part. */
module Invariant {
  import opened Forge
  import opened Offsets
  import opened Protocol
  import opened Conversation
  import opened Forwarding
  import opened Pipeline

  // ---------- the invariant ----------

  ghost predicate Sized(cfg: Setup, s: State) {
    && |s.cl| == cfg.Clients() && |s.fw| == cfg.forwarders
    && forall c :: 0 <= c < |s.cl| ==> IsClient(cfg, s, c)
  }

  /** The forwarder's record of the client's request. */
  function RecOf(cfg: Setup, s: State, c: nat): Record
    requires IsClient(cfg, s, c)
  {
    var records := s.fw[cfg.Home(c)].records;
    if s.cl[c].cur.Got? && s.cl[c].cur.addr < |records| then records[s.cl[c].cur.addr] else NO_RECORD
  }

  predicate ClientOk(cfg: Setup, s: State, c: nat)
    requires IsClient(cfg, s, c)
  {
    && (s.cl[c].cur.Got? ==> s.cl[c].cur.addr < |s.fw[cfg.Home(c)].records|)
    && Ok(cfg, c, s.cl[c], RecOf(cfg, s, c))
  }

  ghost predicate Conversations(cfg: Setup, s: State)
    requires Sized(cfg, s)
  {
    forall c :: 0 <= c < |s.cl| ==> ClientOk(cfg, s, c)
  }

  /** An unanswered request is the current one of a client of this forwarder; every other was answered once. */
  predicate OwnerOk(cfg: Setup, s: State, f: nat, a: nat)
    requires f < |s.fw| && a < |s.fw[f].records|
  {
    var rec := s.fw[f].records[a];
    && (Live(rec) ==> IsClient(cfg, s, rec.req.rank) && cfg.Home(rec.req.rank) == f && s.cl[rec.req.rank].cur == Got(a))
    && rec.answers == if Live(rec) then 0 else 1
  }

  ghost predicate Owners(cfg: Setup, s: State) {
    forall f, a :: 0 <= f < |s.fw| && 0 <= a < |s.fw[f].records| ==> OwnerOk(cfg, s, f, a)
  }

  /** The tables of a forwarder agree, and it has the threads that the set-up gives it. */
  ghost predicate ForwarderOk(cfg: Setup, fw: Forwarder) {
    Tables(fw) && |fw.handlers| == cfg.handlers && |fw.workers| == cfg.workers
  }

  ghost predicate AllTables(cfg: Setup, s: State) {
    forall f :: 0 <= f < |s.fw| ==> ForwarderOk(cfg, s.fw[f])
  }

  /** The range of the client's write number x holds the client's letter. */
  predicate TileHolds(cfg: Setup, files: Files, c: nat, x: nat)
    requires x < cfg.Rounds()
  {
    ReadAt(files, cfg.FileFor(c), cfg.Place(c, x), cfg.requestSize) == cfg.Fill(c)
  }

  ghost predicate WritesHold(cfg: Setup, s: State, c: nat)
    requires IsClient(cfg, s, c)
  {
    forall x: nat :: x < cfg.Rounds() && Wrote(cfg, s.cl[c], RecOf(cfg, s, c), x) ==> TileHolds(cfg, s.files, c, x)
  }

  ghost predicate FilesOk(cfg: Setup, s: State)
    requires Sized(cfg, s)
  {
    && (!cfg.write ==> s.files == cfg.before)
    && forall c :: 0 <= c < |s.cl| ==> WritesHold(cfg, s, c)
  }

  /** The clients of a forwarder that have this file open. */
  function Users(cfg: Setup, s: State, f: nat, file: File): set<nat> {
    set c: nat | c < |s.cl| && IsClient(cfg, s, c) && cfg.Home(c) == f && cfg.FileFor(c) == file
      && HasOpen(s.cl[c], RecOf(cfg, s, c))
  }

  /** A file is in the table of open files exactly while some client uses it, and its count is their number. */
  ghost predicate HandleOk(cfg: Setup, s: State, f: nat, file: File)
    requires f < |s.fw|
  {
    var fw := s.fw[f];
    && (file in fw.handles <==> Users(cfg, s, f, file) != {})
    && (file in fw.handles ==>
          var h := fw.handles[file];
          && h.references == |Users(cfg, s, f, file)|
          && h.fh in fw.descriptors && fw.descriptors[h.fh] == file)
  }

  /** A client that has its file open knows the descriptor of its file, or will be told it. */
  predicate KnowsHandle(cfg: Setup, s: State, c: nat)
    requires IsClient(cfg, s, c)
  {
    HasOpen(s.cl[c], RecOf(cfg, s, c)) ==>
      var handles := s.fw[cfg.Home(c)].handles;
      cfg.FileFor(c) in handles && Conversation.Handle(s.cl[c], RecOf(cfg, s, c)) == handles[cfg.FileFor(c)].fh
  }

  predicate DescriptorOk(fw: Forwarder, fd: int)
    requires fd in fw.descriptors
  {
    fw.descriptors[fd] in fw.handles && fw.handles[fw.descriptors[fd]].fh == fd
  }

  ghost predicate Handles(cfg: Setup, s: State)
    requires Sized(cfg, s)
  {
    && (forall f, file :: 0 <= f < |s.fw| ==> HandleOk(cfg, s, f, file))
    && (forall c :: 0 <= c < |s.cl| ==> KnowsHandle(cfg, s, c))
    && (forall f, fd :: 0 <= f < |s.fw| && fd in s.fw[f].descriptors ==> DescriptorOk(s.fw[f], fd))
  }

  function Gone(cfg: Setup, s: State, f: nat): set<nat> {
    set c: nat | c < |s.cl| && IsClient(cfg, s, c) && cfg.Home(c) == f && SignedOff(s.cl[c])
  }

  /** A forwarder has counted the clients that signed off, and stops with the last of them. */
  ghost predicate CountOk(cfg: Setup, s: State, f: nat)
    requires f < |s.fw|
  {
    s.fw[f].signOffs == |Gone(cfg, s, f)| && (s.fw[f].stopped <==> s.fw[f].signOffs == cfg.Threshold())
  }

  ghost predicate SignOffs(cfg: Setup, s: State) {
    forall f :: 0 <= f < |s.fw| ==> CountOk(cfg, s, f)
  }

  /** Whoever is behind waits at the barrier that the others have passed. */
  predicate Together(cfg: Setup, c: Client, d: Client) {
    Order(d.phase) < Order(c.phase) ==> d.pc == AtBarrier && c.phase == Next(cfg, d.phase)
  }

  ghost predicate Barriers(cfg: Setup, s: State) {
    forall c, d :: 0 <= c < |s.cl| && 0 <= d < |s.cl| ==> Together(cfg, s.cl[c], s.cl[d])
  }

  /** Some client would find something else than its letter in the files as they were before the run. */
  ghost predicate Differs(cfg: Setup) {
    exists c: nat, i: nat | c < cfg.Clients() && i < cfg.Rounds() :: cfg.Stored(c, i) != cfg.Fill(c)
  }

  /** The only fault that can occur is that a run without writes finds other data than its letters. */
  ghost predicate FaultOk(cfg: Setup, s: State) {
    s.fault == NoFault || (s.fault == ValidationFailed && cfg.validate && !cfg.write && Differs(cfg))
  }

  ghost predicate Inv(cfg: Setup, s: State) {
    && Sized(cfg, s) && Conversations(cfg, s) && Owners(cfg, s) && AllTables(cfg, s) && FilesOk(cfg, s)
    && Handles(cfg, s) && SignOffs(cfg, s) && Barriers(cfg, s) && FaultOk(cfg, s)
  }

  // ---------- what keeps the parts ----------

  lemma RankOf(cfg: Setup, s: State, c: nat)
    requires IsClient(cfg, s, c) && ClientOk(cfg, s, c) && s.cl[c].cur.Got?
    ensures s.cl[c].cur.addr < |s.fw[cfg.Home(c)].records|
    ensures RecOf(cfg, s, c).req.rank == c && RecOf(cfg, s, c) == s.fw[cfg.Home(c)].records[s.cl[c].cur.addr]
  {
    hide Offset;
  }

  /** Only client c and the record of its request may change. */
  ghost predicate OnlyClient(cfg: Setup, s: State, s': State, c: nat)
    requires Sized(cfg, s) && Sized(cfg, s')
  {
    && c < |s.cl|
    && forall d :: 0 <= d < |s.cl| && d != c ==> Same(cfg, s, s', d)
  }

  predicate Alike(cfg: Setup, s: State, s': State, d: nat)
    requires IsClient(cfg, s, d) && IsClient(cfg, s', d)
  {
    s'.cl[d] == s.cl[d] && RecOf(cfg, s', d) == RecOf(cfg, s, d)
  }

  predicate Same(cfg: Setup, s: State, s': State, d: nat)
    requires IsClient(cfg, s, d) && IsClient(cfg, s', d)
  {
    && Alike(cfg, s, s', d)
    && |s.fw[cfg.Home(d)].records| <= |s'.fw[cfg.Home(d)].records|
  }

  lemma ConversationsKept(cfg: Setup, s: State, s': State, c: nat)
    requires Sized(cfg, s) && Sized(cfg, s') && Conversations(cfg, s) && OnlyClient(cfg, s, s', c)
             && ClientOk(cfg, s', c)
    ensures Conversations(cfg, s')
  {
    forall d | 0 <= d < |s'.cl| ensures ClientOk(cfg, s', d) {
      if d != c { assert Same(cfg, s, s', d) && ClientOk(cfg, s, d); }
    }
  }

  lemma FilesKept(cfg: Setup, s: State, s': State, c: nat)
    requires Sized(cfg, s) && Sized(cfg, s') && FilesOk(cfg, s) && OnlyClient(cfg, s, s', c)
    requires SameWrites(cfg, s.cl[c], RecOf(cfg, s, c), s'.cl[c], RecOf(cfg, s', c)) && s'.files == s.files
    ensures FilesOk(cfg, s')
  {
    forall d | 0 <= d < |s'.cl| ensures WritesHold(cfg, s', d) {
      assert WritesHold(cfg, s, d);
      if d != c { assert Same(cfg, s, s', d); }
    }
  }

  predicate SameFiling(fw: Forwarder, fw': Forwarder) {
    fw'.handles == fw.handles && fw'.descriptors == fw.descriptors
  }

  lemma SameUsers(cfg: Setup, s: State, s': State, c: nat, f: nat, file: File)
    requires Sized(cfg, s) && Sized(cfg, s') && OnlyClient(cfg, s, s', c)
    requires cfg.Home(c) == f && cfg.FileFor(c) == file ==>
               HasOpen(s.cl[c], RecOf(cfg, s, c)) == HasOpen(s'.cl[c], RecOf(cfg, s', c))
    ensures Users(cfg, s', f, file) == Users(cfg, s, f, file)
  {
    forall d | 0 <= d < |s.cl| ensures d in Users(cfg, s', f, file) <==> d in Users(cfg, s, f, file) {
      if d != c { assert Same(cfg, s, s', d); }
    }
  }

  lemma HandleKept(cfg: Setup, s: State, s': State, c: nat, f: nat, file: File)
    requires Sized(cfg, s) && Sized(cfg, s') && f < |s.fw| && HandleOk(cfg, s, f, file) && OnlyClient(cfg, s, s', c)
    requires HasOpen(s.cl[c], RecOf(cfg, s, c)) == HasOpen(s'.cl[c], RecOf(cfg, s', c))
    requires SameFiling(s.fw[f], s'.fw[f])
    ensures HandleOk(cfg, s', f, file)
  {
    hide Users, HasOpen;
    SameUsers(cfg, s, s', c, f, file);
  }

  lemma HandleKnown(cfg: Setup, s: State, s': State, c: nat, d: nat)
    requires Sized(cfg, s) && Sized(cfg, s') && d < |s.cl| && KnowsHandle(cfg, s, d) && OnlyClient(cfg, s, s', c)
    requires SameOpen(s.cl[c], RecOf(cfg, s, c), s'.cl[c], RecOf(cfg, s', c))
    requires SameFiling(s.fw[cfg.Home(d)], s'.fw[cfg.Home(d)])
    ensures KnowsHandle(cfg, s', d)
  {
    hide Conversation.HasOpen, Conversation.Handle;
    if d != c { assert Same(cfg, s, s', d); }
  }

  lemma HandlesKept(cfg: Setup, s: State, s': State, c: nat)
    requires Sized(cfg, s) && Sized(cfg, s') && Handles(cfg, s) && OnlyClient(cfg, s, s', c)
    requires SameOpen(s.cl[c], RecOf(cfg, s, c), s'.cl[c], RecOf(cfg, s', c))
    requires forall f :: 0 <= f < |s.fw| ==> SameFiling(s.fw[f], s'.fw[f])
    ensures Handles(cfg, s')
  {
    forall f, file | 0 <= f < |s'.fw| ensures HandleOk(cfg, s', f, file) {
      assert HandleOk(cfg, s, f, file) && SameFiling(s.fw[f], s'.fw[f]);
      HandleKept(cfg, s, s', c, f, file);
    }
    forall d | 0 <= d < |s'.cl| ensures KnowsHandle(cfg, s', d) {
      assert KnowsHandle(cfg, s, d) && SameFiling(s.fw[cfg.Home(d)], s'.fw[cfg.Home(d)]);
      HandleKnown(cfg, s, s', c, d);
    }
    forall f, fd | 0 <= f < |s'.fw| && fd in s'.fw[f].descriptors ensures DescriptorOk(s'.fw[f], fd) {
      assert SameFiling(s.fw[f], s'.fw[f]) && DescriptorOk(s.fw[f], fd);
    }
  }

  predicate SameCount(fw: Forwarder, fw': Forwarder) {
    fw'.signOffs == fw.signOffs && fw'.stopped == fw.stopped
  }

  lemma SignOffsKept(cfg: Setup, s: State, s': State, c: nat)
    requires Sized(cfg, s) && Sized(cfg, s') && SignOffs(cfg, s) && OnlyClient(cfg, s, s', c)
    requires SignedOff(s'.cl[c]) == SignedOff(s.cl[c])
    requires forall f :: 0 <= f < |s.fw| ==> SameCount(s.fw[f], s'.fw[f])
    ensures SignOffs(cfg, s')
  {
    forall f | 0 <= f < |s'.fw| ensures CountOk(cfg, s', f) {
      assert CountOk(cfg, s, f) && SameCount(s.fw[f], s'.fw[f]);
      forall d | 0 <= d < |s.cl| ensures d in Gone(cfg, s', f) <==> d in Gone(cfg, s, f) {
        if d != c { assert Same(cfg, s, s', d); }
      }
      assert Gone(cfg, s', f) == Gone(cfg, s, f);
    }
  }

  lemma BarriersKept(cfg: Setup, s: State, s': State, c: nat)
    requires Barriers(cfg, s) && |s'.cl| == |s.cl| && c < |s.cl|
    requires s'.cl == s.cl[c := s'.cl[c]]
    requires s'.cl[c].phase == s.cl[c].phase && (s.cl[c].pc == AtBarrier ==> s'.cl[c].pc == AtBarrier)
    ensures Barriers(cfg, s')
  {
    forall d, e | 0 <= d < |s'.cl| && 0 <= e < |s'.cl| ensures Together(cfg, s'.cl[d], s'.cl[e]) {
      assert Together(cfg, s.cl[d], s.cl[e]);
    }
  }
}
