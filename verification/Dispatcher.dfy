/**
 The ready queue between the scheduler's callbacks and the dispatcher, and the
 dispatcher's construction of batches from it, over the linked ring.

 Each method is what runs while the queue's mutex is held. Callbacks may run
 between the two halves of building a batch.
 */
module Dispatcher {
  import opened Forge
  import opened FwdList

  function Flatten(s: seq<seq<nat>>): seq<nat> {
    if s == [] then [] else Flatten(s[..|s| - 1]) + s[|s| - 1]
  }

  function Ids(batch: seq<Request>): seq<nat> {
    seq(|batch|, i requires 0 <= i < |batch| => batch[i].id)
  }

  /** The identifiers queued behind the sentinel. */
  ghost function Queued(ring: seq<Node>): seq<nat>
    requires ring != []
  {
    seq(|ring| - 1, i requires 0 <= i < |ring| - 1 => ring[i + 1].id)
  }

  /** A table of pending requests holds an identifier, and under it a request with that identifier. */
  predicate Pending(requests: map<nat, Request>, id: nat) {
    id in requests && requests[id].id == id
  }

  predicate AllPending(requests: map<nat, Request>, ids: seq<nat>) {
    forall i :: 0 <= i < |ids| ==> Pending(requests, ids[i])
  }

  /** The request is the one the table holds under its identifier. */
  predicate FromTable(requests: map<nat, Request>, r: Request) {
    r.id in requests && requests[r.id] == r
  }

  /** Where a batch ends: it is full, or the queue is empty, or its head does not fit. */
  predicate Ends(batch: seq<Request>, queue: seq<nat>, requests: map<nat, Request>)
    requires batch != [] && AllPending(requests, queue)
  {
    |batch| == 16 || queue == []
      || (assert Pending(requests, queue[0]);
          var next := requests[queue[0]];
          next.msg.op != batch[0].msg.op || next.msg.handle != batch[0].msg.handle)
  }

  /** A batch the dispatcher may issue: 1 to 16 requests that share operation and file handle. */
  predicate Proper(batch: seq<Request>) {
    && 1 <= |batch| <= 16
    && forall i :: 0 <= i < |batch| ==>
         batch[i].msg.op == batch[0].msg.op && batch[i].msg.handle == batch[0].msg.handle
  }

  lemma FlattenMore(s: seq<seq<nat>>, x: seq<nat>)
    ensures Flatten(s + [x]) == Flatten(s) + x
  {
    assert (s + [x])[..|s|] == s;
  }

  lemma NothingBetween(s: seq<nat>, t: seq<nat>)
    ensures s + [] + t == s + t
  {
    assert s + [] == s;
  }

  lemma Single(r: Request)
    ensures Ids([r]) == [r.id] && Ids([r][1..]) == []
  {
  }

  lemma Alone(r: Request)
    ensures Proper([r])
  {
  }

  /** The sentinel's successor is the head of the queue. */
  lemma HeadOfQueue(ring: seq<Node>, requests: map<nat, Request>)
    requires |ring| > 1 && AllPending(requests, Queued(ring))
    ensures Queued(ring) != [] && Queued(ring)[0] == ring[1].id && Pending(requests, ring[1].id)
    ensures AllPending(requests, Queued(ring)[1..])
  {
  }

  lemma HeadLeadsOn(ring: seq<Node>)
    requires Ring(ring)
    ensures ring != [] && ring[0].next == After(ring, 0)
    ensures After(ring, 0) == ring[0] <==> |ring| == 1
  {
    assert LinkedAt(ring, 0);
  }

  predicate Misfit(r: Request, id: nat, requests: map<nat, Request>) {
    id in requests && !SameBatch(r, requests[id])
  }

  /** The walk ends with a full batch, behind the last entry, or at one that does not fit. */
  lemma WalkEnds(batch: seq<Request>, ring: seq<Node>, requests: map<nat, Request>)
    requires batch != [] && ring != [] && AllPending(requests, Queued(ring))
    requires |batch| == MAX_BATCH_SIZE || |ring| == 1 || Misfit(batch[0], ring[1].id, requests)
    ensures Ends(batch, Queued(ring), requests)
  {
    if |ring| > 1 { HeadOfQueue(ring, requests); }
  }

  lemma Grow(batch: seq<Request>, r: Request, queue: seq<nat>)
    requires batch != [] && Proper(batch) && |batch| < MAX_BATCH_SIZE && SameBatch(batch[0], r)
    ensures Proper(batch + [r])
    ensures Ids(batch + [r]) == Ids(batch) + [r.id]
    ensures Ids((batch + [r])[1..]) + queue == Ids(batch[1..]) + ([r.id] + queue)
  {
    assert (batch + [r])[1..] == batch[1..] + [r];
    assert Ids(batch[1..] + [r]) == Ids(batch[1..]) + [r.id];
  }

  class ReadyQueue {
    const head: Node
    ghost var ring: seq<Node>
    /** Every identifier ever appended, in order. */
    ghost var appended: seq<nat>
    /** The batches issued so far. */
    ghost var issued: seq<seq<nat>>
    /** What the dispatcher has taken for the batch it is about to build. */
    ghost var taken: seq<nat>

    /** No identifier is lost, duplicated or reordered between the callbacks and the batches. */
    ghost predicate Valid()
      reads this, ring
    {
      && Ring(ring) && ring[0] == head && Conserved()
    }

    ghost predicate Conserved()
      requires ring != []
      reads this, ring
    {
      appended == Flatten(issued) + taken + Queued(ring)
    }

    ghost function Queue(): seq<nat>
      requires Valid()
      reads this, ring
    {
      Queued(ring)
    }

    constructor ()
      ensures Valid() && fresh(ring) && appended == [] && issued == [] && taken == []
    {
      var sentinel := new Node(0);
      head, ring := sentinel, [sentinel];
      appended, issued, taken := [], [], [];
    }

    /** The scheduler releases one request. */
    method Callback(id: nat)
      requires Valid()
      modifies this`ring, this`appended, ring
      ensures Valid() && Queue() == old(Queue()) + [id]
      ensures appended == old(appended) + [id]
      ensures fresh(set x | x in ring && x !in old(ring))
    {
      var ready := new Node(id);
      AddTail(ready, head, ring);
      ghost var was := ring;
      ring := ring + [ready];
      appended := appended + [id];
      assert Queued(ring) == Queued(was) + [id];
    }

    /** The scheduler releases several requests in one go. */
    method CallbackAggregated(ids: seq<nat>)
      requires Valid()
      modifies this`ring, this`appended, ring
      ensures Valid() && Queue() == old(Queue()) + ids
      ensures appended == old(appended) + ids
    {
      for i := 0 to |ids|
        invariant Valid() && Queue() == old(Queue()) + ids[..i]
        invariant appended == old(appended) + ids[..i]
        invariant fresh(set x | x in ring && x !in old(ring))
      {
        Callback(ids[i]);
      }
    }

    /** Takes the oldest request for a new batch. */
    method TakeFirst() returns (id: nat)
      requires Valid() && Queue() != [] && taken == []
      modifies this`ring, this`taken, ring
      ensures Valid() && taken == [id] && [id] + Queue() == old(Queue())
      ensures forall x :: x in ring ==> x in old(ring)
    {
      assert LinkedAt(ring, 0);
      var ready := head.next;
      id := ready.id;
      ghost var was := ring;
      Del(ready, ring, 1);
      ring := Removed(ring, 1);
      taken := [id];
      assert [id] + Queued(ring) == Queued(was);
    }

    /**
     Fills the batch that starts with the request taken first. Deletion happens
     inside a walk that has saved the successor of the entry it looks at.
     */
    method Gather(r: Request, requests: map<nat, Request>) returns (batch: seq<Request>)
      requires Valid() && taken == [r.id]
      requires AllPending(requests, Queue())
      modifies this`ring, this`taken, this`issued, ring
      ensures Valid() && taken == [] && issued == old(issued) + [Ids(batch)]
      ensures Proper(batch) && batch[0] == r
      ensures Ids(batch[1..]) + Queue() == old(Queue())
      ensures forall i :: 1 <= i < |batch| ==> FromTable(requests, batch[i])
      ensures AllPending(requests, Queue()) && Ends(batch, Queue(), requests)
      ensures forall x :: x in ring ==> x in old(ring)
    {
      hide Flatten, Ids, Queued, Ring, AllPending, Ends, Proper, Conserved;
      batch := [r];
      Single(r);
      Alone(r);
      HeadLeadsOn(ring);
      var pos := head.next;
      var n := pos.next;
      while pos != head
        invariant ring != [] && Ring(ring) && ring[0] == head && pos == After(ring, 0) && n == pos.next
        invariant pos == head <==> |ring| == 1
        invariant Conserved() && taken == Ids(batch) && 1 <= |batch| <= MAX_BATCH_SIZE && Proper(batch) && batch[0] == r
        invariant Ids(batch[1..]) + Queued(ring) == old(Queue())
        invariant forall i :: 1 <= i < |batch| ==> FromTable(requests, batch[i])
        invariant AllPending(requests, Queued(ring))
        invariant issued == old(issued)
        invariant forall i :: 0 <= i < |ring| ==> ring[i] in old(ring)
        decreases |ring|
      {
        if |batch| >= MAX_BATCH_SIZE {
          break;
        }
        var id := pos.id;
        HeadOfQueue(ring, requests);
        var next := requests[id];
        if !SameBatch(r, next) {
          break;
        }
        ghost var queue := Queued(ring);
        n := DeleteFirst(pos, n);
        assert Queued(ring) == queue[1..];
        Grow(batch, next, Queued(ring));
        batch := batch + [next];
        pos := n;
        HeadLeadsOn(ring);
        n := n.next;
      }
      WalkEnds(batch, ring, requests);
      Issue(Ids(batch));
    }

    /** The batch is complete. */
    ghost method Issue(ids: seq<nat>)
      requires ring != [] && Conserved() && taken == ids
      modifies this`issued, this`taken
      ensures Conserved() && issued == old(issued) + [ids] && taken == []
    {
      hide Flatten, Queued;
      FlattenMore(issued, ids);
      NothingBetween(Flatten(issued) + ids, Queued(ring));
      issued := issued + [ids];
      taken := [];
    }

    method DeleteFirst(pos: Node, n: Node) returns (m: Node)
      requires Ring(ring) && ring[0] == head && |ring| > 1 && pos == ring[1] && n == pos.next
      requires Conserved()
      modifies this`ring, this`taken, ring
      ensures ring != [] && Ring(ring) && |ring| == |old(ring)| - 1 && ring[0] == head
      ensures Conserved() && taken == old(taken) + [pos.id]
      ensures m == n == After(ring, 0)
      ensures forall i :: 0 <= i < |ring| ==> ring[i] in old(ring)
      ensures [pos.id] + Queued(ring) == Queued(old(ring))
    {
      assert LinkedAt(ring, 1);
      m := n;
      Del(pos, ring, 1);
      ring := Removed(ring, 1);
      taken := taken + [pos.id];
      assert [pos.id] + Queued(ring) == Queued(old(ring));
    }
  }
}
