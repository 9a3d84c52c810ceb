/** Every step of a forwarder keeps its tables in agreement with its records. Who works on what is in Staffing. */
module TableSteps {
  import opened Forge
  import opened Protocol
  import opened Forwarding

  // ---------- identifiers ----------

  lemma NextIsIdOf(n: nat)
    ensures IdOf(n) == 1000000 + n % 8000001 && NextId(IdOf(n)) == IdOf(n + 1)
  {
    if n % CYCLE == CYCLE - 1 {
      assert (n + 1) % CYCLE == 0;
    } else {
      assert (n + 1) % CYCLE == n % CYCLE + 1;
    }
  }

  /** Within one cycle of draws no identifier repeats, and none is ever one of the fixed tags. */
  lemma IdsDiffer(m: nat, n: nat)
    requires m < n < m + 8000001
    ensures IdOf(m) != IdOf(n)
  {
    assert m == (m / CYCLE) * CYCLE + m % CYCLE && n == (n / CYCLE) * CYCLE + n % CYCLE;
  }

  lemma IdsAreNoTags(n: nat)
    ensures 1000000 <= IdOf(n) <= 9000000
    ensures TAG_REQUEST == 10001 && TAG_ACK == 10002 && TAG_HANDLE == 10003
  {
  }

  lemma LiveIdsDiffer(fw: Forwarder, a: nat, b: nat)
    requires Identified(fw) && a < |fw.records| && b < |fw.records| && a != b
    requires Live(fw.records[a]) && Live(fw.records[b])
    ensures fw.records[a].req.id != fw.records[b].req.id
  {
    if a < b { IdsDiffer(a + 1, b + 1); } else { IdsDiffer(b + 1, a + 1); }
  }

  // ---------- steps that leave the tables alone ----------

  /** A record is updated outside its time in the table. */
  predicate Aside(rec: Record, rec': Record) {
    && rec'.req == rec.req && Live(rec) && !InTable(rec) && !InTable(rec')
    && !rec.stage.Incoming? && !rec'.stage.Incoming?
  }

  /** Record a was in the table and is unchanged, or is not in it. */
  predicate Untouched(fw: Forwarder, fw': Forwarder, a: nat)
    requires a < |fw'.records|
  {
    && (a < |fw.records| ==> fw'.records[a].req == fw.records[a].req)
    && if a < |fw.records| && InTable(fw.records[a]) then fw'.records[a] == fw.records[a] else !InTable(fw'.records[a])
  }

  ghost predicate SameTables(fw: Forwarder, fw': Forwarder) {
    && fw'.requests == fw.requests && fw'.agios == fw.agios && fw'.ready == fw.ready && fw'.popped == fw.popped
    && fw'.dispatcher == fw.dispatcher && fw'.batches == fw.batches
    && |fw.records| <= |fw'.records|
    && forall a :: 0 <= a < |fw'.records| ==> Untouched(fw, fw', a)
  }

  /** What was asked for does not change, and the ready queue only grows. */
  ghost predicate SameAsked(fw: Forwarder, fw': Forwarder) {
    && |fw.records| <= |fw'.records| && fw.ready <= fw'.ready
    && forall a :: 0 <= a < |fw.records| ==> fw'.records[a].req == fw.records[a].req
  }

  lemma EndingStays(fw: Forwarder, fw': Forwarder, j: nat)
    requires Batched(fw) && j < |fw.batches| && SameAsked(fw, fw')
    ensures var b := fw.batches[j]; b.items != [] && EndingOk(fw', b.start, b.items, b.ending)
  {
    assert BatchOk(fw, j);
  }

  lemma SameEntry(fw: Forwarder, fw': Forwarder, id: nat)
    requires Registry(fw) && SameTables(fw, fw') && id in fw.requests
    ensures fw.requests[id] < |fw.records| && fw'.records[fw.requests[id]] == fw.records[fw.requests[id]]
    ensures Entry(fw', id)
  {
    assert Entry(fw, id);
    assert Untouched(fw, fw', fw.requests[id]);
  }

  lemma SameTablesKeep(fw: Forwarder, fw': Forwarder)
    requires Registry(fw) && Scheduling(fw) && ReadyQueue(fw) && Batched(fw) && AllTracked(fw) && SameTables(fw, fw')
    ensures Registry(fw') && Scheduling(fw') && ReadyQueue(fw') && Batched(fw') && AllTracked(fw')
  {
    assert SameAsked(fw, fw') by {
      forall a | 0 <= a < |fw.records| ensures fw'.records[a].req == fw.records[a].req { assert Untouched(fw, fw', a); }
    }
    forall id | id in fw.requests
      ensures Entry(fw', id) && fw'.records[fw.requests[id]] == fw.records[fw.requests[id]]
    {
      SameEntry(fw, fw', id);
    }
    forall a | 0 <= a < |fw'.records|
      ensures HasEntry(fw', a) && ReleasedAt(fw', fw'.records[a])
      ensures fw'.records[a].stage.Scheduled? ==> fw'.records[a].req.id in fw.agios
      ensures forall j :: 0 <= j < |fw.batches| ==> Tracked(fw'.records[a], fw.batches[j])
    {
      assert Untouched(fw, fw', a);
      if a < |fw.records| { assert HasEntry(fw, a) && ReleasedAt(fw, fw.records[a]); }
    }
    forall id | id in fw.agios ensures At(fw', id, Scheduled) { assert At(fw, id, Scheduled); }
    forall k | Issued(fw') <= k < |fw'.ready| ensures Waits(fw', k) { assert Waits(fw, k); }
    forall j | 0 <= j < |fw'.batches| ensures BatchOk(fw', j) {
      assert BatchOk(fw, j);
      EndingStays(fw, fw', j);
      forall i | 0 <= i < |fw.batches[j].items|
        ensures ItemOk(fw', fw.batches[j], i)
      {
        assert ItemOk(fw, fw.batches[j], i);
      }
    }
  }

  lemma AsideKeeps(fw: Forwarder, a: nat, rec: Record)
    requires Core(fw) && a < |fw.records| && Aside(fw.records[a], rec)
    ensures Core(SetRecord(fw, a, rec))
  {
    SameTablesKeep(fw, SetRecord(fw, a, rec));
  }

  lemma AcceptKeeps(fw: Forwarder, rank: nat, msg: Message)
    requires Core(fw) && Window(Accept(fw, rank, msg))
    ensures Core(Accept(fw, rank, msg))
  {
    NextIsIdOf(|fw.records|);
    SameTablesKeep(fw, Accept(fw, rank, msg));
  }

  lemma TakeKeeps(fw: Forwarder, h: nat)
    requires Core(fw) && fw.taken < |fw.records| && h < |fw.handlers|
    ensures Core(Take(fw, h)) && fw.records[fw.taken].stage.Incoming?
  {
    SameTablesKeep(fw, Take(fw, h));
  }

  /** Forwarders that differ only in who works on what. */
  ghost predicate Reassigned(fw: Forwarder, fw': Forwarder) {
    && fw' == fw.(handlers := fw'.handlers, jobs := fw'.jobs, pulled := fw'.pulled, workers := fw'.workers,
      batches := fw'.batches)
    && |fw'.batches| == |fw.batches|
    && forall j :: 0 <= j < |fw.batches| ==> fw'.batches[j] == fw.batches[j].(progress := fw'.batches[j].progress)
  }

  lemma ReassignedBatches(fw: Forwarder, fw': Forwarder)
    requires Batched(fw) && Reassigned(fw, fw')
    ensures Batched(fw')
  {
    hide EndingOk;
    forall j | 0 <= j < |fw'.batches| ensures BatchOk(fw', j) {
      assert BatchOk(fw, j);
      EndingStays(fw, fw', j);
      SameStarts(fw, fw', j);
      forall i | 0 <= i < |fw.batches[j].items|
        ensures ItemOk(fw', fw'.batches[j], i)
      {
        assert ItemOk(fw, fw.batches[j], i);
      }
    }
  }

  lemma ReassignedKeeps(fw: Forwarder, fw': Forwarder)
    requires Core(fw) && Reassigned(fw, fw')
    ensures Core(fw')
  {
    hide Batched;
    ReassignedBatches(fw, fw');
    SameStarts(fw, fw', |fw.batches|);
    forall id | id in fw'.requests ensures Entry(fw', id) { assert Entry(fw, id); }
    forall a | 0 <= a < |fw'.records| ensures HasEntry(fw', a) && ReleasedAt(fw', fw'.records[a]) {
      assert HasEntry(fw, a) && ReleasedAt(fw, fw.records[a]);
    }
    forall id | id in fw'.agios ensures At(fw', id, Scheduled) { assert At(fw, id, Scheduled); }
    forall k | Issued(fw') <= k < |fw'.ready| ensures Waits(fw', k) { assert Waits(fw, k); }
    forall a, j | 0 <= a < |fw'.records| && 0 <= j < |fw'.batches| ensures Tracked(fw'.records[a], fw'.batches[j]) {
      assert Tracked(fw.records[a], fw.batches[j]);
    }
  }

  // ---------- registration, scheduling, release ----------

  /** What a step does not change of the ready queue and the batches. */
  ghost predicate SameQueues(fw: Forwarder, fw': Forwarder) {
    fw'.ready == fw.ready && fw'.popped == fw.popped && fw'.dispatcher == fw.dispatcher && fw'.batches == fw.batches
  }

  lemma RegisterKeeps(fw: Forwarder, a: nat)
    requires Core(fw) && a < |fw.records| && (fw.records[a].stage.IdSent? || fw.records[a].stage.Received?)
    ensures fw.records[a].req.id !in fw.requests
    ensures Core(Register(fw, a))
  {
    hide ReadyQueue, Batched, AllTracked, Identified;
    var fw' := Register(fw, a);
    SameIds(fw, fw', a);
    var id := fw.records[a].req.id;
    if id in fw.requests { assert Entry(fw, id); LiveIdsDiffer(fw, a, fw.requests[id]); }
    forall id | id in fw'.requests ensures Entry(fw', id) { if id in fw.requests { assert Entry(fw, id); } }
    forall b | 0 <= b < |fw'.records| ensures HasEntry(fw', b) { assert HasEntry(fw, b); }
    OthersStay(fw, fw', a);
  }

  lemma SameIds(fw: Forwarder, fw': Forwarder, a: nat)
    requires Identified(fw) && a < |fw.records| && Live(fw.records[a])
    requires |fw'.records| == |fw.records| && fw'.globalId == fw.globalId
             && fw'.records == fw.records[a := fw'.records[a]] && fw'.records[a].req == fw.records[a].req
    ensures Identified(fw')
  {
  }

  /** A record that was not released may change its stage; all that was released stays as it is. */
  lemma OthersStay(fw: Forwarder, fw': Forwarder, a: nat)
    requires Registry(fw) && ReadyQueue(fw) && Batched(fw) && AllTracked(fw) && SameQueues(fw, fw')
    requires a < |fw.records| && |fw'.records| == |fw.records|
    requires forall id | id in fw.requests && fw.requests[id] != a ::
               id in fw'.requests && fw'.requests[id] == fw.requests[id]
    requires forall b | 0 <= b < |fw.records| && b != a :: fw'.records[b] == fw.records[b]
    requires !fw.records[a].stage.Released? && !fw.records[a].stage.Performed?
    requires !fw'.records[a].stage.Released? && !fw'.records[a].stage.Performed?
             && fw'.records[a].req == fw.records[a].req
    ensures ReadyQueue(fw') && Batched(fw') && AllTracked(fw')
  {
    if fw.dispatcher.Found? { assert Waits(fw, fw.popped - 1); }
    forall b | 0 <= b < |fw'.records| ensures ReleasedAt(fw', fw'.records[b]) { assert ReleasedAt(fw, fw.records[b]); }
    forall k | Issued(fw') <= k < |fw'.ready| ensures Waits(fw', k) { assert Waits(fw, k); }
    forall j | 0 <= j < |fw'.batches| ensures BatchOk(fw', j) {
      assert BatchOk(fw, j);
      EndingStays(fw, fw', j);
      forall i | 0 <= i < |fw.batches[j].items|
        ensures ItemOk(fw', fw.batches[j], i)
      {
        assert ItemOk(fw, fw.batches[j], i);
      }
    }
    forall b, j | 0 <= b < |fw'.records| && 0 <= j < |fw'.batches| ensures Tracked(fw'.records[b], fw'.batches[j]) {
      assert Tracked(fw.records[b], fw.batches[j]);
    }
  }

  lemma ScheduleKeeps(fw: Forwarder, a: nat)
    requires Core(fw) && a < |fw.records| && fw.records[a].stage.Registered?
    ensures Core(Schedule(fw, a))
  {
    hide ReadyQueue, Batched, AllTracked, Identified;
    var fw' := SetStage(fw, a, Scheduled).(agios := fw.agios + {fw.records[a].req.id});
    SameIds(fw, fw', a);
    var id := fw.records[a].req.id;
    assert HasEntry(fw, a);
    forall id | id in fw'.requests ensures Entry(fw', id) { assert Entry(fw, id); }
    forall b | 0 <= b < |fw'.records| ensures HasEntry(fw', b) { assert HasEntry(fw, b); }
    forall id | id in fw'.agios ensures At(fw', id, Scheduled) { if id in fw.agios { assert At(fw, id, Scheduled); } }
    OthersStay(fw, fw', a);
    ReassignedKeeps(fw', Schedule(fw, a));
  }

  lemma {:induction false} StartIsBelow(fw: Forwarder, i: nat, j: nat)
    requires Batched(fw) && i < j <= |fw.batches|
    ensures fw.batches[i].start + |fw.batches[i].items| <= BatchStart(fw.batches, j)
  {
    if i < j - 1 {
      StartIsBelow(fw, i, j - 1);
      assert BatchOk(fw, j - 1);
    }
  }

  lemma ReleaseKeeps(fw: Forwarder, id: nat)
    requires Core(fw) && id in fw.agios
    ensures At(fw, id, Scheduled) && Core(Release(fw, id))
  {
    hide Identified, Window;
    assert At(fw, id, Scheduled) && Entry(fw, id);
    var fw' := Release(fw, id);
    var a := fw.requests[id];
    SameIds(fw, fw', a);
    forall id | id in fw'.requests ensures Entry(fw', id) { assert Entry(fw, id); }
    forall b | 0 <= b < |fw'.records| ensures HasEntry(fw', b) && ReleasedAt(fw', fw'.records[b]) {
      assert HasEntry(fw, b) && ReleasedAt(fw, fw.records[b]);
    }
    forall other | other in fw'.agios
      ensures At(fw', other, Scheduled)
    {
      assert At(fw, other, Scheduled) && Entry(fw, other);
    }
    ReleaseKeepsQueue(fw, id);
    ReleaseKeepsBatches(fw, id);
  }

  lemma ReleaseKeepsQueue(fw: Forwarder, id: nat)
    requires Registry(fw) && ReadyQueue(fw) && At(fw, id, Scheduled) && Entry(fw, id)
    ensures ReadyQueue(Release(fw, id))
  {
    var fw' := Release(fw, id);
    forall b | 0 <= b < |fw'.records| ensures ReleasedAt(fw', fw'.records[b]) { assert ReleasedAt(fw, fw.records[b]); }
    forall k | Issued(fw') <= k < |fw'.ready| ensures Waits(fw', k) { if k < |fw.ready| { assert Waits(fw, k); } }
    if fw.dispatcher.Found? { assert Waits(fw, fw.popped - 1); }
  }

  lemma ReleaseKeepsBatches(fw: Forwarder, id: nat)
    requires ReadyQueue(fw) && Batched(fw) && AllTracked(fw) && At(fw, id, Scheduled)
    ensures Batched(Release(fw, id)) && AllTracked(Release(fw, id))
  {
    var fw' := Release(fw, id);
    forall j | 0 <= j < |fw'.batches| ensures BatchOk(fw', j) {
      assert BatchOk(fw, j);
      EndingStays(fw, fw', j);
      forall i | 0 <= i < |fw.batches[j].items|
        ensures ItemOk(fw', fw.batches[j], i)
      {
        assert ItemOk(fw, fw.batches[j], i);
      }
    }
    forall b, j | 0 <= b < |fw'.records| && 0 <= j < |fw'.batches| ensures Tracked(fw'.records[b], fw'.batches[j]) {
      assert Tracked(fw.records[b], fw.batches[j]);
      StartIsBelow(fw, j, |fw.batches|);
    }
  }

  // ---------- the dispatcher ----------

  /** What the dispatcher looks up is in the table. */
  lemma QueuedIsKnown(fw: Forwarder, k: nat)
    requires ReadyQueue(fw) && Issued(fw) <= k < |fw.ready|
    ensures Known(fw, fw.ready[k])
  {
    assert Waits(fw, k);
  }

  lemma PopKeeps(fw: Forwarder)
    requires Core(fw) && fw.dispatcher == Idle && fw.popped < |fw.ready|
    ensures Core(Pop(fw))
  {
    DispatcherMoves(fw, Pop(fw));
  }

  lemma LookupKeeps(fw: Forwarder)
    requires Core(fw) && fw.dispatcher.Taken?
    ensures Known(fw, fw.dispatcher.id) && Core(Lookup(fw))
  {
    QueuedIsKnown(fw, fw.popped - 1);
    DispatcherMoves(fw, Lookup(fw));
  }

  lemma DispatcherMoves(fw: Forwarder, fw': Forwarder)
    requires Core(fw) && fw' == fw.(dispatcher := fw'.dispatcher, popped := fw'.popped)
    requires match fw'.dispatcher
             case Idle => fw'.popped == Issued(fw)
             case Taken(id) => fw'.popped == Issued(fw) + 1 <= |fw.ready| && id == fw.ready[fw'.popped - 1]
             case Found(first) =>
               && fw'.popped == Issued(fw) + 1 <= |fw.ready|
               && Known(fw, fw.ready[fw'.popped - 1]) && first == CopyOf(fw, fw.ready[fw'.popped - 1])
    ensures Core(fw')
  {
    forall id | id in fw'.requests ensures Entry(fw', id) { assert Entry(fw, id); }
    forall b | 0 <= b < |fw'.records| ensures HasEntry(fw', b) && ReleasedAt(fw', fw'.records[b]) {
      assert HasEntry(fw, b) && ReleasedAt(fw, fw.records[b]);
    }
    forall id | id in fw'.agios ensures At(fw', id, Scheduled) { assert At(fw, id, Scheduled); }
    forall k | Issued(fw') <= k < |fw'.ready| ensures Waits(fw', k) { assert Waits(fw, k); }
    forall j | 0 <= j < |fw'.batches| ensures BatchOk(fw', j) {
      assert BatchOk(fw, j);
      EndingStays(fw, fw', j);
      forall i | 0 <= i < |fw.batches[j].items|
        ensures ItemOk(fw', fw.batches[j], i)
      {
        assert ItemOk(fw, fw.batches[j], i);
      }
    }
  }

  /** A batch of copies continues the ready queue from position k0, in order, and all fit the first. */
  predicate Continues(fw: Forwarder, items: seq<Copy>, k0: nat) {
    forall i :: 0 <= i < |items| ==> ContinuesAt(fw, items, k0, i)
  }

  predicate ContinuesAt(fw: Forwarder, items: seq<Copy>, k0: nat, i: nat)
    requires i < |items|
  {
    && k0 + i < |fw.ready| && Known(fw, fw.ready[k0 + i]) && items[i] == CopyOf(fw, fw.ready[k0 + i])
    && items[i].req.msg.op == items[0].req.msg.op && items[i].req.msg.handle == items[0].req.msg.handle
  }

  /** A batch is as long as it can be. */
  predicate Maximal(fw: Forwarder, items: seq<Copy>, k: nat)
    requires items != []
  {
    || |items| == 16
    || k >= |fw.ready|
    || (Known(fw, fw.ready[k]) ==>
          var next := CopyOf(fw, fw.ready[k]).req.msg;
          next.op != items[0].req.msg.op || next.handle != items[0].req.msg.handle)
  }

  lemma {:induction false} ExtendContinues(fw: Forwarder, items: seq<Copy>, k0: nat, k: nat)
    requires 1 <= |items| <= MAX_BATCH_SIZE && k0 + |items| == k <= |fw.ready|
    requires Continues(fw, items, k0)
    ensures Continues(fw, Extend(fw, items, k), k0)
    ensures Maximal(fw, Extend(fw, items, k), k0 + |Extend(fw, items, k)|)
    decreases MAX_BATCH_SIZE - |items|
  {
    if |items| < MAX_BATCH_SIZE && k < |fw.ready| && Known(fw, fw.ready[k]) {
      var next := CopyOf(fw, fw.ready[k]);
      if SameBatch(items[0].req, next.req) {
        forall i | 0 <= i < |items| + 1 ensures ContinuesAt(fw, items + [next], k0, i) {
          if i < |items| { assert ContinuesAt(fw, items, k0, i); }
        }
        ExtendContinues(fw, items + [next], k0, k + 1);
      }
    }
  }

  /**
   The batch that the dispatcher builds continues the ready queue where the previous batch
   ended, has 1 to 16 requests of one operation on one handle, and is short of 16 only because
   the queue was empty or its head did not fit. Every look-up on the way succeeds.
   */
  lemma GatherBuilds(fw: Forwarder)
    requires Core(fw) && fw.dispatcher.Found?
    ensures GatherFinds(fw)
    ensures Continues(fw, Gathered(fw), Issued(fw)) && 1 <= |Gathered(fw)| <= 16
    ensures Maximal(fw, Gathered(fw), Issued(fw) + |Gathered(fw)|)
  {
    var k := fw.popped - 1;
    assert Waits(fw, k);
    assert ContinuesAt(fw, [fw.dispatcher.first], k, 0);
    ExtendContinues(fw, [fw.dispatcher.first], k, fw.popped);
    var end := fw.popped + |Gathered(fw)| - 1;
    if end < |fw.ready| { QueuedIsKnown(fw, end); }
  }

  lemma GatherKeeps(fw: Forwarder)
    requires Core(fw) && fw.dispatcher.Found?
    ensures Core(Gather(fw))
  {
    hide Identified, InOrder, Extend;
    GatherBuilds(fw);
    var fw' := Gather(fw);
    assert fw'.batches[..|fw.batches|] == fw.batches;
    assert Identified(fw') && InOrder(fw') by { SameHeads(fw, fw'); }
    forall id | id in fw'.requests ensures Entry(fw', id) { assert Entry(fw, id); }
    forall b | 0 <= b < |fw'.records| ensures HasEntry(fw', b) && ReleasedAt(fw', fw'.records[b]) {
      assert HasEntry(fw, b) && ReleasedAt(fw, fw.records[b]);
    }
    forall id | id in fw'.agios ensures At(fw', id, Scheduled) { assert At(fw, id, Scheduled); }
    forall k | Issued(fw') <= k < |fw'.ready| ensures Waits(fw', k) { assert Waits(fw, k); }
    GatherKeepsBatches(fw);
  }

  /** The ending that the dispatcher notes is why the batch ended. */
  lemma GatherEnds(fw: Forwarder)
    requires ReadyQueue(fw) && fw.dispatcher.Found?
    requires Continues(fw, Gathered(fw), Issued(fw)) && Maximal(fw, Gathered(fw), Issued(fw) + |Gathered(fw)|)
    ensures var b := Gather(fw).batches[|fw.batches|]; EndingOk(Gather(fw), b.start, b.items, b.ending)
  {
    hide Extend;
    var k := Issued(fw) + |Gathered(fw)|;
    if k < |fw.ready| { assert Waits(fw, k); }
  }

  lemma SameHeads(fw: Forwarder, fw': Forwarder)
    requires Identified(fw) && InOrder(fw)
    requires fw'.records == fw.records && fw'.taken == fw.taken && fw'.globalId == fw.globalId
    ensures Identified(fw') && InOrder(fw')
  {
  }

  lemma GatherKeepsBatches(fw: Forwarder)
    requires ReadyQueue(fw) && Batched(fw) && AllTracked(fw) && fw.dispatcher.Found?
    requires Continues(fw, Gathered(fw), Issued(fw)) && 1 <= |Gathered(fw)| <= 16
    requires Maximal(fw, Gathered(fw), Issued(fw) + |Gathered(fw)|)
    ensures Batched(Gather(fw)) && AllTracked(Gather(fw))
  {
    hide Extend;
    var fw' := Gather(fw);
    var n := |fw.batches|;
    forall j | 0 <= j < |fw'.batches| ensures BatchOk(fw', j) {
      if j < n {
        assert BatchOk(fw, j);
        EndingStays(fw, fw', j);
        forall i | 0 <= i < |fw.batches[j].items|
          ensures ItemOk(fw', fw.batches[j], i)
        {
          assert ItemOk(fw, fw.batches[j], i);
        }
      } else {
        var b := fw'.batches[n];
        GatherEnds(fw);
        forall i | 0 <= i < |b.items| ensures ItemOk(fw', b, i) {
          assert ContinuesAt(fw, b.items, b.start, i);
          assert Waits(fw, b.start + i);
        }
      }
    }
    forall a, j | 0 <= a < |fw'.records| && 0 <= j < |fw'.batches| ensures Tracked(fw'.records[a], fw'.batches[j]) {
      if j < n { assert Tracked(fw.records[a], fw.batches[j]); } else { assert ReleasedAt(fw, fw.records[a]); }
    }
  }

  // ---------- batches ----------

  /** The next request of a batch to be performed is there, released and in the table. */
  lemma PerformFinds(fw: Forwarder, j: nat)
    requires Batched(fw) && j < |fw.batches| && fw.batches[j].performed < |fw.batches[j].items|
    ensures var b := fw.batches[j];
            var item := b.items[b.performed];
            && item.addr < |fw.records| && fw.records[item.addr].req == item.req
            && fw.records[item.addr].stage == Released(b.start + b.performed)
  {
    assert BatchOk(fw, j);
    assert ItemOk(fw, fw.batches[j], fw.batches[j].performed);
  }

  lemma PerformKeeps(fw: Forwarder, j: nat, data: seq<char>)
    requires Core(fw) && CanPerform(fw, j)
    ensures Core(Perform(fw, j, data))
  {
    hide Core;
    PerformItemKeeps(fw, j, data);
    ReassignedKeeps(PerformItem(fw, j, data), Perform(fw, j, data));
  }

  lemma PerformItemKeeps(fw: Forwarder, j: nat, data: seq<char>)
    requires Core(fw) && CanPerform(fw, j)
    ensures Core(PerformItem(fw, j, data))
  {
    hide Identified, ReadyQueue, Batched, AllTracked;
    PerformFinds(fw, j);
    var fw' := PerformItem(fw, j, data);
    SameIds(fw, fw', Performing(fw, j).addr);
    forall id | id in fw'.requests ensures Entry(fw', id) { assert Entry(fw, id); }
    forall b | 0 <= b < |fw'.records| ensures HasEntry(fw', b) { assert HasEntry(fw, b); }
    forall id | id in fw'.agios ensures At(fw', id, Scheduled) { assert At(fw, id, Scheduled); }
    PerformKeepsQueue(fw, j, data);
    PerformKeepsBatches(fw, j, data);
    PerformKeepsTracked(fw, j, data);
  }

  lemma PerformKeepsQueue(fw: Forwarder, j: nat, data: seq<char>)
    requires Registry(fw) && ReadyQueue(fw) && Batched(fw) && CanPerform(fw, j)
    ensures ReadyQueue(PerformItem(fw, j, data))
  {
    PerformFinds(fw, j);
    var fw' := PerformItem(fw, j, data);
    SameStarts(fw, fw', |fw.batches|);
    StartIsBelow(fw, j, |fw.batches|);
    forall b | 0 <= b < |fw'.records| ensures ReleasedAt(fw', fw'.records[b]) { assert ReleasedAt(fw, fw.records[b]); }
    forall k | Issued(fw') <= k < |fw'.ready| ensures Waits(fw', k) { assert Waits(fw, k); }
    if fw.dispatcher.Found? { assert Waits(fw, fw.popped - 1); }
  }

  /** Batches keep their places in the ready queue. */
  lemma SameStarts(fw: Forwarder, fw': Forwarder, j: nat)
    requires |fw'.batches| == |fw.batches| && j <= |fw.batches|
    requires forall i :: 0 <= i < |fw.batches| ==>
               fw'.batches[i].start == fw.batches[i].start && fw'.batches[i].items == fw.batches[i].items
    ensures BatchStart(fw'.batches, j) == BatchStart(fw.batches, j)
  {
  }

  lemma PerformAsks(fw: Forwarder, j: nat, data: seq<char>)
    requires CanPerform(fw, j)
    ensures SameAsked(fw, PerformItem(fw, j, data))
  {
  }

  lemma CompleteAsks(fw: Forwarder, j: nat)
    requires CanReply(fw, j) && Known(fw, Replying(fw, j))
    ensures SameAsked(fw, CompleteItem(fw, j))
  {
  }

  lemma PerformKeepsBatches(fw: Forwarder, j: nat, data: seq<char>)
    requires Registry(fw) && Batched(fw) && CanPerform(fw, j)
    ensures Batched(PerformItem(fw, j, data))
  {
    hide EndingOk, SameAsked;
    PerformFinds(fw, j);
    var fw' := PerformItem(fw, j, data);
    PerformAsks(fw, j, data);
    forall l | 0 <= l < |fw'.batches| ensures BatchOk(fw', l) {
      assert BatchOk(fw, l) && BatchOk(fw, j);
      EndingStays(fw, fw', l);
      SameStarts(fw, fw', l);
      if l < j { StartIsBelow(fw, l, j); } else if j < l { StartIsBelow(fw, j, l); }
      forall i | 0 <= i < |fw.batches[l].items|
        ensures ItemOk(fw', fw'.batches[l], i)
      {
        assert ItemOk(fw, fw.batches[l], i);
      }
    }
  }

  lemma PerformKeepsTracked(fw: Forwarder, j: nat, data: seq<char>)
    requires Registry(fw) && ReadyQueue(fw) && Batched(fw) && AllTracked(fw) && CanPerform(fw, j)
    ensures AllTracked(PerformItem(fw, j, data))
  {
    PerformFinds(fw, j);
    var fw' := PerformItem(fw, j, data);
    var a := Performing(fw, j).addr;
    forall b, l | 0 <= b < |fw'.records| && 0 <= l < |fw'.batches| ensures Tracked(fw'.records[b], fw'.batches[l]) {
      assert Tracked(fw.records[b], fw.batches[l]) && ReleasedAt(fw, fw.records[b]) && HasEntry(fw, b);
      assert ReleasedAt(fw, fw.records[a]) && HasEntry(fw, a);
      assert BatchOk(fw, l) && BatchOk(fw, j);
      if l < j { StartIsBelow(fw, l, j); } else if j < l { StartIsBelow(fw, j, l); }
    }
  }

  /** The request to be answered next is in the table, and its record is the one that was performed. */
  lemma ReplyFinds(fw: Forwarder, j: nat)
    requires Batched(fw) && CanReply(fw, j)
    ensures Known(fw, Replying(fw, j))
    ensures var b := fw.batches[j];
            && fw.requests[Replying(fw, j)] == b.items[b.replied].addr
            && fw.records[b.items[b.replied].addr].stage == Performed(b.start + b.replied)
  {
    assert BatchOk(fw, j);
    assert ItemOk(fw, fw.batches[j], fw.batches[j].replied);
  }

  lemma CompleteKeeps(fw: Forwarder, j: nat)
    requires Core(fw) && CanReply(fw, j)
    ensures Known(fw, Replying(fw, j)) && Core(Complete(fw, j))
  {
    hide Core;
    CompleteItemKeeps(fw, j);
    ReassignedKeeps(CompleteItem(fw, j), Complete(fw, j));
  }

  lemma CompleteItemKeeps(fw: Forwarder, j: nat)
    requires Core(fw) && CanReply(fw, j)
    ensures Known(fw, Replying(fw, j)) && Core(CompleteItem(fw, j))
  {
    hide Identified, ReadyQueue, Batched, AllTracked;
    ReplyFinds(fw, j);
    var fw' := CompleteItem(fw, j);
    var id := Replying(fw, j);
    assert Entry(fw, id);
    SameIds(fw, fw', fw.requests[id]);
    forall id | id in fw'.requests ensures Entry(fw', id) { assert Entry(fw, id); }
    forall b | 0 <= b < |fw'.records| ensures HasEntry(fw', b) { assert HasEntry(fw, b); }
    forall id | id in fw'.agios ensures At(fw', id, Scheduled) { assert At(fw, id, Scheduled); }
    CompleteKeepsQueue(fw, j);
    CompleteKeepsBatches(fw, j);
    CompleteKeepsTracked(fw, j);
  }

  lemma CompleteKeepsQueue(fw: Forwarder, j: nat)
    requires Registry(fw) && ReadyQueue(fw) && Batched(fw) && CanReply(fw, j) && Known(fw, Replying(fw, j))
    ensures ReadyQueue(CompleteItem(fw, j))
  {
    ReplyFinds(fw, j);
    var fw' := CompleteItem(fw, j);
    SameStarts(fw, fw', |fw.batches|);
    forall b | 0 <= b < |fw'.records| ensures ReleasedAt(fw', fw'.records[b]) { assert ReleasedAt(fw, fw.records[b]); }
    forall k | Issued(fw') <= k < |fw'.ready| ensures Waits(fw', k) { assert Waits(fw, k); }
    if fw.dispatcher.Found? { assert Waits(fw, fw.popped - 1); }
  }

  lemma CompleteKeepsBatches(fw: Forwarder, j: nat)
    requires Registry(fw) && Batched(fw) && CanReply(fw, j) && Known(fw, Replying(fw, j))
    ensures Batched(CompleteItem(fw, j))
  {
    hide EndingOk, SameAsked;
    ReplyFinds(fw, j);
    var fw' := CompleteItem(fw, j);
    CompleteAsks(fw, j);
    assert Entry(fw, Replying(fw, j));
    forall l | 0 <= l < |fw'.batches| ensures BatchOk(fw', l) {
      assert BatchOk(fw, l) && BatchOk(fw, j);
      EndingStays(fw, fw', l);
      SameStarts(fw, fw', l);
      if l < j { StartIsBelow(fw, l, j); } else if j < l { StartIsBelow(fw, j, l); }
      forall i | 0 <= i < |fw.batches[l].items|
        ensures ItemOk(fw', fw'.batches[l], i)
      {
        assert ItemOk(fw, fw.batches[l], i);
      }
    }
  }

  lemma CompleteKeepsTracked(fw: Forwarder, j: nat)
    requires Registry(fw) && ReadyQueue(fw) && Batched(fw) && AllTracked(fw) && CanReply(fw, j)
             && Known(fw, Replying(fw, j))
    ensures AllTracked(CompleteItem(fw, j))
  {
    ReplyFinds(fw, j);
    var fw' := CompleteItem(fw, j);
    var a := fw.requests[Replying(fw, j)];
    forall b, l | 0 <= b < |fw'.records| && 0 <= l < |fw'.batches| ensures Tracked(fw'.records[b], fw'.batches[l]) {
      assert Tracked(fw.records[b], fw.batches[l]) && ReleasedAt(fw, fw.records[b]) && HasEntry(fw, b);
      assert ReleasedAt(fw, fw.records[a]) && HasEntry(fw, a);
    }
  }
}
