/**
 The circular doubly linked list with a sentinel head, updated in place.
 */
module FwdList {

  class Node {
    const id: nat
    var prev: Node
    var next: Node

    /** A node is initialised as a ring of its own. */
    constructor (id: nat)
      ensures this.id == id && prev == this && next == this
    {
      this.id := id;
      prev := this;
      next := this;
    }
  }

  ghost function After(ring: seq<Node>, i: nat): Node
    requires i < |ring|
  {
    ring[if i + 1 < |ring| then i + 1 else 0]
  }

  ghost function Before(ring: seq<Node>, i: nat): Node
    requires i < |ring|
  {
    ring[if i == 0 then |ring| - 1 else i - 1]
  }

  ghost predicate LinkedAt(ring: seq<Node>, i: nat)
    requires i < |ring|
    reads ring
  {
    ring[i].next == After(ring, i) && ring[i].prev == Before(ring, i)
  }

  /** The nodes in ring order, the sentinel first. */
  ghost predicate Ring(ring: seq<Node>)
    reads ring
  {
    && ring != []
    && (forall i, j :: 0 <= i < j < |ring| ==> ring[i] != ring[j])
    && (forall i :: 0 <= i < |ring| ==> LinkedAt(ring, i))
  }

  ghost function Inserted(ring: seq<Node>, k: nat, x: Node): seq<Node>
    requires k <= |ring|
  {
    ring[..k] + [x] + ring[k..]
  }

  ghost function Removed(ring: seq<Node>, k: nat): seq<Node>
    requires k < |ring|
  {
    ring[..k] + ring[k + 1..]
  }

  /** Puts a node between two neighbours. */
  method Link(x: Node, prev: Node, next: Node, ghost ring: seq<Node>, ghost k: nat)
    requires Ring(ring) && 1 <= k <= |ring| && x !in ring
    requires prev == ring[k - 1] && next == After(ring, k - 1)
    modifies ring, x
    ensures Ring(Inserted(ring, k, x))
  {
    assert LinkedAt(ring, k - 1) && LinkedAt(ring, if k < |ring| then k else 0);
    next.prev := x;
    x.next := next;
    x.prev := prev;
    prev.next := x;
    ghost var more := Inserted(ring, k, x);
    forall i | 0 <= i < |more| ensures LinkedAt(more, i) {
      if i < k { assert old(LinkedAt(ring, i)); }
      if i > k { assert old(LinkedAt(ring, i - 1)); }
    }
  }

  /** Right behind the head. */
  method Add(x: Node, head: Node, ghost ring: seq<Node>)
    requires Ring(ring) && head == ring[0] && x !in ring
    modifies ring, x
    ensures Ring([head, x] + ring[1..])
  {
    assert LinkedAt(ring, 0);
    Link(x, head, head.next, ring, 1);
    assert Inserted(ring, 1, x) == [head, x] + ring[1..];
  }

  /** In front of the head, which is the end of the list. */
  method AddTail(x: Node, head: Node, ghost ring: seq<Node>)
    requires Ring(ring) && head == ring[0] && x !in ring
    modifies ring, x
    ensures Ring(ring + [x])
  {
    assert LinkedAt(ring, 0);
    Link(x, head.prev, head, ring, |ring|);
    assert Inserted(ring, |ring|, x) == ring + [x];
  }

  /** Takes an entry out of the ring and leaves it as a ring of its own. */
  method Del(entry: Node, ghost ring: seq<Node>, ghost k: nat)
    requires Ring(ring) && 1 <= k < |ring| && entry == ring[k]
    modifies ring
    ensures Ring(Removed(ring, k)) && Ring([entry])
  {
    assert LinkedAt(ring, k) && LinkedAt(ring, k - 1) && LinkedAt(ring, if k + 1 < |ring| then k + 1 else 0);
    Unlink(entry.prev, entry.next, ring, k);
    entry.next := entry;
    entry.prev := entry;
    ghost var less := Removed(ring, k);
    assert forall i :: 0 <= i < |less| ==> less[i] == ring[if i < k then i else i + 1];
    forall i | 0 <= i < |less| ensures LinkedAt(less, i) {
      assert old(LinkedAt(ring, if i < k then i else i + 1));
    }
  }

  /** Links the neighbours of an entry to each other. */
  method Unlink(prev: Node, next: Node, ghost ring: seq<Node>, ghost k: nat)
    requires 1 <= k < |ring| && prev == ring[k - 1] && next == After(ring, k)
    modifies prev, next
    ensures next.prev == prev && prev.next == next
    ensures next != prev ==> next.next == old(next.next) && prev.prev == old(prev.prev)
  {
    next.prev := prev;
    prev.next := next;
  }

  /** The list is empty when the head is its own neighbour. */
  method Empty(head: Node, ghost ring: seq<Node>) returns (b: bool)
    requires Ring(ring) && head == ring[0]
    ensures b <==> |ring| == 1
  {
    assert LinkedAt(ring, 0);
    b := head.next == head;
  }
}
