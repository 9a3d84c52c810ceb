/**
 The dispatcher's walk over the linked ready queue builds the batch that the pipeline's
 step issues: what is proved of the code over the ring is what the step does to the forwarder.
 */
module DispatcherSteps {
  import opened Forge
  import opened Forwarding
  import D = Dispatcher

  /** The table of requests as the dispatcher looks into it: from identifiers to requests. */
  function PendingOf(fw: Forwarder): map<nat, Request> {
    map id | id in fw.requests && Known(fw, id) :: fw.records[fw.requests[id]].req
  }

  function RequestsOf(items: seq<Copy>): (r: seq<Request>)
    ensures |r| == |items|
  {
    seq(|items|, i requires 0 <= i < |items| => items[i].req)
  }

  /** What the walk over the ring finds: the batch with what is left of the queue. */
  ghost predicate Walked(fw: Forwarder, batch: seq<Request>, rest: seq<nat>)
    requires fw.popped <= |fw.ready|
  {
    && D.Proper(batch)
    && D.Ids(batch[1..]) + rest == fw.ready[fw.popped..]
    && (forall i :: 1 <= i < |batch| ==> D.FromTable(PendingOf(fw), batch[i]))
    && D.AllPending(PendingOf(fw), rest) && D.Ends(batch, rest, PendingOf(fw))
  }

  /** The walk may begin: every identifier in the queue is pending. */
  lemma QueueIsPending(fw: Forwarder)
    requires Core(fw) && fw.popped <= |fw.ready|
    ensures D.AllPending(PendingOf(fw), fw.ready[fw.popped..])
  {
    hide Identified, InOrder, Scheduling, Batched, AllTracked;
    var queue := fw.ready[fw.popped..];
    forall i | 0 <= i < |queue| ensures D.Pending(PendingOf(fw), queue[i]) {
      assert queue[i] == fw.ready[fw.popped + i];
      assert Waits(fw, fw.popped + i);
      assert Entry(fw, queue[i]);
    }
  }

  lemma {:induction false} ExtendIsBatch(fw: Forwarder, items: seq<Copy>, batch: seq<Request>, rest: seq<nat>)
    requires fw.popped <= |fw.ready| && Walked(fw, batch, rest)
    requires 1 <= |items| <= |batch| && RequestsOf(items) == batch[..|items|]
    ensures var k := fw.popped + |items| - 1;
            k <= |fw.ready| && RequestsOf(Extend(fw, items, k)) == batch
    decreases |batch| - |items|
  {
    hide PendingOf;
    var m, k := |items|, fw.popped + |items| - 1;
    assert |D.Ids(batch[1..])| == |batch| - 1;
    assert items[0].req == batch[..m][0];
    if m == |batch| {
      if rest != [] {
        assert fw.ready[k] == fw.ready[fw.popped..][m - 1] == rest[0];
        assert D.Pending(PendingOf(fw), rest[0]);
        PendingIsKnown(fw, rest[0]);
      }
      assert batch[..m] == batch;
    } else {
      assert fw.ready[k] == fw.ready[fw.popped..][m - 1] == D.Ids(batch[1..])[m - 1] == batch[m].id;
      assert D.FromTable(PendingOf(fw), batch[m]);
      PendingIsKnown(fw, batch[m].id);
      ExtendIsBatch(fw, items + [CopyOf(fw, fw.ready[k])], batch, rest);
    }
  }

  lemma PendingIsKnown(fw: Forwarder, id: nat)
    requires id in PendingOf(fw)
    ensures Known(fw, id) && PendingOf(fw)[id] == CopyOf(fw, id).req
  {
  }

  /**
   The batch of the walk is the batch of the step, and what the walk leaves in the ring is what the step leaves
   in the queue.
   */
  lemma GatherIsWalk(fw: Forwarder, batch: seq<Request>, rest: seq<nat>)
    requires fw.dispatcher.Found? && 1 <= fw.popped <= |fw.ready|
    requires Walked(fw, batch, rest) && batch[0] == fw.dispatcher.first.req
    ensures var fw' := Gather(fw);
            && fw'.popped <= |fw'.ready| && fw'.ready[fw'.popped..] == rest
            && |fw'.batches| == |fw.batches| + 1 && RequestsOf(fw'.batches[|fw.batches|].items) == batch
  {
    hide Extend, EndingOf, PendingOf;
    var items := [fw.dispatcher.first];
    assert batch[..1] == [batch[0]];
    ExtendIsBatch(fw, items, batch, rest);
    var n := |batch| - 1;
    assert |D.Ids(batch[1..])| == n;
    assert fw.ready[fw.popped + n..] == fw.ready[fw.popped..][n..] == rest;
  }

  /** The dispatcher's code on the ring does to the ready queue and to the batches what the step does. */
  method IssueBatch(queue: D.ReadyQueue, r: Request, requests: map<nat, Request>, ghost fw: Forwarder) returns
      (batch: seq<Request>)
    requires queue.Valid() && queue.taken == [r.id] && requests == PendingOf(fw)
    requires Core(fw) && fw.dispatcher.Found? && 1 <= fw.popped <= |fw.ready|
    requires r == fw.dispatcher.first.req && queue.Queue() == fw.ready[fw.popped..]
    modifies queue`ring, queue`taken, queue`issued, queue.ring
    ensures queue.Valid()
    ensures var fw' := Gather(fw);
            && fw'.popped <= |fw'.ready| && queue.Queue() == fw'.ready[fw'.popped..]
            && |fw'.batches| == |fw.batches| + 1 && batch == RequestsOf(fw'.batches[|fw.batches|].items)
  {
    hide Core, Gather, PendingOf;
    QueueIsPending(fw);
    batch := queue.Gather(r, requests);
    GatherIsWalk(fw, batch, queue.Queue());
  }
}
