/**
 The array-based priority queue: a 1-based binary heap in which elements are moved
 with a hole, and every element records the slot it is in.

 Each operation is proved to do to the array what HeapTheory says, so the theory's
 results on heap order, contents and rank hold of it.
 */
module PriorityQueue {
  import opened HeapTheory

  /** A client's element, with the priority and the position that the get and set callbacks access. */
  class Element {
    var pri: nat
    var pos: nat

    constructor (pri: nat)
      ensures this.pri == pri
    {
      this.pri := pri;
    }
  }

  ghost function ElementsOf(h: seq<Entry<Element>>): set<Element> {
    set x | x in h :: x.e
  }

  lemma ElementsOfContents(g: seq<Entry<Element>>, h: seq<Entry<Element>>)
    requires multiset(g) == multiset(h)
    ensures ElementsOf(g) == ElementsOf(h)
  {
    assert forall x :: x in g <==> x in multiset(g);
    assert forall x :: x in h <==> x in multiset(h);
  }

  lemma SwapFacts(h: seq<Entry<Element>>, i: nat, j: nat)
    requires Distinct(h) && 1 <= i <= |h| && 1 <= j <= |h| && i != j
    ensures var g := Swap(h, i, j);
            && multiset(g) == multiset(h) && ElementsOf(g) == ElementsOf(h) && Distinct(g)
            && g[i - 1] == h[j - 1] && g[j - 1] == h[i - 1]
            && (forall k :: 0 <= k < |h| && k != i - 1 && k != j - 1 ==> g[k] == h[k])
            && (forall k :: 0 <= k < |h| ==> h[k].e in ElementsOf(h) && (k != j - 1 ==> h[k].e != h[j - 1].e))
  {
    SwapKeepsContents(h, i, j);
    ElementsOfContents(h, Swap(h, i, j));
    forall k | 0 <= k < |h| ensures h[k].e in ElementsOf(h) {
      assert h[k] in h;
    }
  }

  /** The entries that are left come out in the same order. */
  lemma PopAllFrom(h: seq<Entry<Element>>, below: Below, all: seq<Entry<Element>>, k: nat)
    requires k <= |all| && PopAll(h, below) == all[k..]
    ensures h == [] <==> k == |all|
    ensures h != [] ==> h[0] == all[k] && PopAll(HeapTheory.Pop(h, below), below) == all[k + 1..]
  {
    hide HeapTheory.Pop;
    if h != [] {
      assert PopAll(h, below)[0] == h[0] && PopAll(h, below)[1..] == PopAll(HeapTheory.Pop(h, below), below);
      assert all[k..][0] == all[k] && all[k..][1..] == all[k + 1..];
    }
  }

  /** Taking an element out and putting the last one in its place leaves the others, each once. */
  lemma RemovedFrom(h: seq<Entry<Element>>, g: seq<Entry<Element>>, i: nat)
    requires Distinct(h) && 1 <= i <= |h|
    requires g == if i == |h| then h[..|h| - 1] else h[..|h| - 1][i - 1 := h[|h| - 1]]
    ensures Distinct(g) && ElementsOf(g) == ElementsOf(h) - {h[i - 1].e}
  {
    var n := |h| - 1;
    forall x | x in h && x != h[i - 1] ensures x in g {
      var k :| 0 <= k < |h| && h[k] == x;
      assert k < n ==> g[k] == x;
      assert k == n ==> g[i - 1] == x;
    }
  }

  lemma SameElements(h: seq<Entry<Element>>, g: seq<Entry<Element>>)
    requires |g| == |h| && forall k :: 0 <= k < |h| ==> g[k].e == h[k].e
    ensures ElementsOf(g) == ElementsOf(h)
    ensures Distinct(h) ==> Distinct(g)
  {
    forall x | x in h ensures x.e in ElementsOf(g) {
      var k :| 0 <= k < |h| && h[k] == x;
      assert g[k] in g;
    }
    forall x | x in g ensures x.e in ElementsOf(h) {
      var k :| 0 <= k < |h| && g[k] == x;
      assert h[k] in h;
    }
  }

  class Queue {
    var size: nat
    var avail: nat
    var step: nat
    const below: Below
    /** Whether the set-position callback stores the position; that of a printing copy does nothing. */
    const tracks: bool
    var d: array<Element?>
    /** The entries of slots 1 to size - 1. */
    ghost var h: seq<Entry<Element>>

    ghost function Elements(): set<Element>
      reads this
    {
      ElementsOf(h)
    }

    /** The elements that the queue writes a position into. */
    ghost function Marked(): set<Element>
      reads this
    {
      if tracks then Elements() else {}
    }

    /** The array holds the entries of h; the slot `hole`, if there is one, is about to be written. */
    ghost predicate Holds(hole: nat)
      reads this, d, Elements()
    {
      && 1 <= size <= d.Length
      && 1 <= step
      && |h| == size - 1
      && (tracks ==> avail <= d.Length)
      && Distinct(h)
      && (forall i :: 0 <= i < |h| ==> h[i].e.pri == h[i].pri)
      && (forall k :: 0 <= k < |h| && k + 1 != hole ==> d[k + 1] == h[k].e)
      && (tracks ==> forall k :: 0 <= k < |h| && k + 1 != hole ==> h[k].e.pos == k + 1)
    }

    /** Between two calls the array is the heap, and every element knows its slot. */
    ghost predicate Valid()
      reads this, d, Elements()
    {
      Holds(0)
    }

    constructor (n: nat, below: Below, tracks: bool)
      ensures Valid() && h == [] && this.below == below && this.tracks == tracks && fresh(d)
      ensures d.Length == avail == step == n + 1
    {
      this.d := new Element?[n + 1](_ => null);
      this.size := 1;
      this.avail, this.step := n + 1, n + 1;
      this.below, this.tracks := below, tracks;
      this.h := [];
    }

    method Size() returns (r: nat)
      requires Valid()
      ensures r == |h|
    {
      r := size - 1;
    }

    /** An element goes to a slot and is told so by the set-position callback. */
    method Write(i: nat, e: Element)
      requires i < d.Length
      modifies d, if tracks then {e} else {}
      ensures d[i] == e && forall k :: 0 <= k < d.Length && k != i ==> d[k] == old(d[k])
      ensures e.pri == old(e.pri) && (tracks ==> e.pos == i)
    {
      d[i] := e;
      SetPos(e, i);
    }

    /** The set-position callback. */
    method SetPos(e: Element, i: nat)
      modifies if tracks then {e} else {}
      ensures e.pri == old(e.pri) && (tracks ==> e.pos == i)
    {
      if tracks {
        e.pos := i;
      }
    }

    /** What stays as it was while entries are moved. */
    twostate predicate Kept()
      reads this
    {
      && multiset(h) == multiset(old(h)) && Elements() == old(Elements())
      && size == old(size) && step == old(step) && avail == old(avail) && d == old(d)
    }

    /** The get-priority callback on the element of a slot. */
    function PriAt(i: nat, ghost hole: nat): (p: nat)
      reads this, d, Elements()
      requires Holds(hole) && 1 <= i < size && i != hole
      ensures |h| == size - 1 && p == h[i - 1].pri
    {
      assert d[i] == h[i - 1].e && h[i - 1] in h;
      d[i].pri
    }

    /** One turn of a loop that moves a hole: the element of slot j goes to slot i, and j is the hole. */
    method Shift(i: nat, j: nat)
      requires Holds(i) && 1 <= i < size && 1 <= j < size && i != j
      modifies this`h, d, Marked()
      ensures Holds(j) && |h| == |old(h)| == size - 1 && h == Swap(old(h), i, j) && Kept()
      ensures h[j - 1] == old(h)[i - 1]
    {
      hide ElementsOf, Swap, Distinct;
      ghost var was, g := h, Swap(h, i, j);
      SwapFacts(h, i, j);
      assert d[j] == h[j - 1].e;
      var e: Element := d[j];
      Write(i, e);
      h := g;
    }

    /** The end of such a loop: the element that was moved goes to the hole. */
    method Place(i: nat, moving: Element)
      requires Holds(i) && 1 <= i < size && h[i - 1].e == moving
      modifies d, Marked()
      ensures Valid() && h == old(h) && Kept()
    {
      assert h[i - 1] in h;
      Write(i, moving);
    }

    method MoveUp(start: nat)
      requires 1 <= start < size && Holds(start) && d[start] == h[start - 1].e
      modifies this`h, d, Marked()
      ensures Valid() && h == BubbleUp(old(h), below, start) && Kept()
    {
      hide Swap, ElementsOf, Distinct, Holds;
      var i := start;
      IsHeld(i);
      var moving: Element := d[i];
      var movingPri := moving.pri;
      while i > 1 && below(PriAt(i / 2, i), movingPri)
        invariant 1 <= i < size == |h| + 1
        invariant Holds(i) && h[i - 1] == Entry(moving, movingPri) && Kept()
        invariant BubbleUp(h, below, i) == BubbleUp(old(h), below, start)
        decreases i
      {
        Shift(i, i / 2);
        i := i / 2;
      }
      Place(i, moving);
    }

    lemma IsHeld(start: nat)
      requires 1 <= start < size && Holds(start) && d[start] == h[start - 1].e
      ensures size <= d.Length && |h| == size - 1
      ensures h[start - 1].e in Elements() && h[start - 1].pri == h[start - 1].e.pri
    {
      assert h[start - 1] in h;
    }

    /** The child that ranks highest, the left one of equals. */
    method HighestChild(i: nat) returns (c: nat)
      requires 1 <= i && Holds(i)
      ensures c == MaxChild(h, below, i)
      ensures c != 0 && StrictWeakOrder(below) ==>
                forall j :: 2 <= j <= |h| && j / 2 == i ==> NotAbove(h, below, c, j)
    {
      forall j | StrictWeakOrder(below) && 2 <= j <= |h| && j / 2 == i && MaxChild(h, below, i) != 0
        ensures NotAbove(h, below, MaxChild(h, below, i), j)
      {
        MaxChildIsHighest(h, below, i, j);
      }
      c := 2 * i;
      if c >= size {
        return 0;
      }
      if c + 1 < size && below(PriAt(c, i), PriAt(c + 1, i)) {
        c := c + 1;
      }
    }

    method MoveDown(start: nat)
      requires 1 <= start < size && Holds(start) && d[start] == h[start - 1].e
      modifies this`h, d, Marked()
      ensures Valid() && h == PercolateDown(old(h), below, start) && Kept()
    {
      hide Swap, MaxChild, Distinct, Holds;
      var i := start;
      IsHeld(i);
      var moving: Element := d[i];
      var movingPri := moving.pri;
      var c := HighestChild(i);
      while c != 0 && below(movingPri, PriAt(c, i))
        invariant 1 <= i < size == |h| + 1 && c == MaxChild(h, below, i)
        invariant Holds(i) && h[i - 1] == Entry(moving, movingPri) && Kept()
        invariant PercolateDown(h, below, i) == PercolateDown(old(h), below, start)
        decreases size - i
      {
        Shift(i, c);
        i := c;
        c := HighestChild(i);
      }
      Place(i, moving);
    }

    /** Moving down from the slot just past the end finds no child and writes the same element back. */
    method MoveDownFrom(start: nat)
      requires 1 <= start <= size && start < d.Length && Holds(start)
      requires d[start] != null && (if start < size then d[start] == h[start - 1].e else d[start] !in Elements())
      modifies this`h, d, Marked(), if tracks then {d[start]} else {}
      ensures Valid() && h == (if start < old(size) then PercolateDown(old(h), below, start) else old(h)) && Kept()
    {
      if start < size {
        MoveDown(start);
      } else {
        var c := HighestChild(start);
        assert c == 0;
        forall k | 0 <= k < |h| ensures h[k].e != d[start] { assert h[k] in h; }
        Write(start, d[start]);
      }
    }

    // ---------- the operations ----------

    /** One element more; the array grows by a step when it is full. */
    method Insert(x: Element)
      requires Valid() && tracks && x !in Elements()
      modifies this, d, Elements(), x
      ensures Valid() && h == HeapTheory.Insert(old(h), below, Entry(x, old(x.pri)))
      ensures step == old(step)
      ensures if old(size) < old(avail) then d == old(d) && avail == old(avail)
              else fresh(d) && d.Length == avail == old(size) + step
    {
      hide Holds, ElementsOf, Distinct, BubbleUp;
      if size >= avail {
        Grow();
      }
      AddLast(x);
      MoveUp(size - 1);
    }

    /** The element goes to the slot behind the last; it is not told yet. */
    method AddLast(x: Element)
      requires Valid() && tracks && size < avail && x !in Elements()
      modifies this`size, this`h, d
      ensures size == old(size) + 1 == |h| + 1 <= d.Length && h == old(h) + [Entry(x, x.pri)]
      ensures Holds(size - 1) && d[size - 1] == x && Elements() == old(Elements()) + {x}
    {
      d[size] := x;
      size := size + 1;
      h := h + [Entry(x, x.pri)];
      forall k | 0 <= k < |old(h)| ensures old(h)[k].e != x { assert old(h)[k] in old(h); }
      assert Entry(x, x.pri) in h;
    }

    method Grow()
      requires Valid() && tracks && size >= avail
      modifies this`d, this`avail
      ensures Valid() && fresh(d) && size < size + step == avail == d.Length
    {
      var newSize := size + step;
      var grown := new Element?[newSize](_ => null);
      var k := 0;
      while k < size
        invariant 0 <= k <= size
        invariant forall m :: 0 <= m < k ==> grown[m] == d[m]
        modifies grown
      {
        grown[k] := d[k];
        k := k + 1;
      }
      d := grown;
      avail := newSize;
    }

    /** An element of the queue gets another priority and moves to where it belongs. */
    method ChangePriority(newPri: nat, x: Element)
      requires Valid() && tracks && x in Elements()
      modifies this`h, d, Elements()
      ensures Valid()
      ensures 1 <= old(x.pos) <= |old(h)| && old(h)[old(x.pos) - 1].e == x
      ensures h == HeapTheory.ChangePriority(old(h), below, old(x.pos), newPri)
    {
      KnowsItsSlot(x);
      var oldPri := x.pri;
      x.pri := newPri;
      var posn := x.pos;
      h := h[posn - 1 := Entry(x, newPri)];
      SameElements(old(h), h);
      if below(oldPri, newPri) {
        MoveUp(posn);
      } else {
        MoveDown(posn);
      }
    }

    lemma KnowsItsSlot(x: Element)
      requires Valid() && tracks && x in Elements()
      ensures 1 <= x.pos <= |h| == size - 1 && h[x.pos - 1] == Entry(x, x.pri)
    {
      var k :| 0 <= k < |h| && h[k].e == x;
      assert h[k].e.pos == k + 1;
    }

    /** The last entry takes the place of the one in this slot; its element is not told yet. */
    method TakeOut(posn: nat)
      requires Valid() && 1 <= posn < size
      modifies this`h, this`size, d
      ensures size == old(size) - 1 == |old(h)| && posn <= size < d.Length && Holds(posn)
      ensures old(h)[size - 1].e in old(Elements()) && d[posn] == old(h)[size - 1].e
              && d[posn].pri == old(h)[size - 1].pri
      ensures h == if posn == size then old(h)[..size - 1] else old(h)[..size - 1][posn - 1 := old(h)[size - 1]]
      ensures Elements() == old(Elements()) - {old(h)[posn - 1].e}
      ensures posn == size ==> d[posn] == old(h)[posn - 1].e
    {
      ghost var n := |h| - 1;
      assert h[n] in h;
      RemovedFrom(h, if posn == size - 1 then h[..n] else h[..n][posn - 1 := h[n]], posn);
      assert forall k :: 0 <= k < |h| ==> d[k + 1] == h[k].e;
      size := size - 1;
      d[posn] := d[size];
      h := if posn == size then h[..n] else h[..n][posn - 1 := h[n]];
    }

    /** An element leaves the queue, wherever it is; the last one takes its slot. */
    method Remove(x: Element)
      requires Valid() && tracks && x in Elements()
      requires !below(x.pri, x.pri)
      modifies this`h, this`size, d, Elements()
      ensures Valid()
      ensures 1 <= old(x.pos) <= |old(h)| && old(h)[old(x.pos) - 1] == Entry(x, old(x.pri))
      ensures h == HeapTheory.Remove(old(h), below, old(x.pos))
    {
      hide Holds, Distinct, ElementsOf, BubbleUp, PercolateDown;
      KnowsItsSlot(x);
      var posn := x.pos;
      TakeOut(posn);
      if below(x.pri, d[posn].pri) {
        MoveUp(posn);
      } else {
        MoveDownFrom(posn);
      }
    }

    /** The highest-ranked element leaves the queue and is returned, or null if there is none. */
    method Pop() returns (head: Element?)
      requires Valid()
      modifies this`h, this`size, d, Marked()
      ensures Valid()
      ensures old(h) == [] ==> head == null && h == []
      ensures old(h) != [] ==> head == old(h)[0].e && h == HeapTheory.Pop(old(h), below)
    {
      if size == 1 {
        return null;
      }
      head := d[1];
      size := size - 1;
      d[1] := d[size];
      var n := |h| - 1;
      h := if n == 0 then [] else h[..n][0 := h[n]];
      RemovedFrom(old(h), h, 1);
      MoveDownFrom(1);
    }

    method Peek() returns (head: Element?)
      requires Valid()
      ensures head == if h == [] then null else h[0].e
    {
      if size == 1 {
        return null;
      }
      head := d[1];
    }

    method SubtreeIsValid(pos: nat) returns (r: bool)
      requires Valid() && 1 <= pos
      ensures r == HeapTheory.SubtreeIsValid(h, below, pos)
      decreases size - pos
    {
      if 2 * pos < size {
        if below(PriAt(pos, 0), PriAt(2 * pos, 0)) {
          return false;
        }
        r := SubtreeIsValid(2 * pos);
        if !r {
          return false;
        }
      }
      if 2 * pos + 1 < size {
        if below(PriAt(pos, 0), PriAt(2 * pos + 1, 0)) {
          return false;
        }
        r := SubtreeIsValid(2 * pos + 1);
        if !r {
          return false;
        }
      }
      return true;
    }

    /** The check answers yes exactly if the queue is in heap order. */
    method IsValid() returns (r: bool)
      requires Valid()
      ensures r <==> Heap(h, below)
    {
      r := SubtreeIsValid(1);
      IsValidExactly(h, below);
    }

    /** Prints by popping a copy that shares the elements; the queue and its elements stay as they are. */
    method Print() returns (printed: seq<Element>)
      requires Valid()
      ensures |printed| == |h| && forall k :: 0 <= k < |h| ==> printed[k] == PopAll(h, below)[k].e
    {
      var dup := new Queue(size, below, false);
      dup.size, dup.avail, dup.step := size, avail, step;
      var k := 0;
      while k < size
        invariant 0 <= k <= size
        invariant forall m :: 0 <= m < k ==> dup.d[m] == d[m]
        modifies dup.d
      {
        dup.d[k] := d[k];
        k := k + 1;
      }
      dup.h := h;
      printed := dup.Drain();
    }

    /** The loop of the printing copy. */
    method Drain() returns (printed: seq<Element>)
      requires Valid() && !tracks
      modifies this`h, this`size, d
      ensures |printed| == |old(h)| && forall k :: 0 <= k < |old(h)| ==> printed[k] == PopAll(old(h), below)[k].e
    {
      ghost var all := PopAll(h, below);
      hide Holds, HeapTheory.Pop, PopAll;
      printed := [];
      PopAllFrom(h, below, all, 0);
      var e := Pop();
      while e != null
        invariant Valid()
        invariant |printed| <= |all| && forall k :: 0 <= k < |printed| ==> printed[k] == all[k].e
        invariant e == null ==> |printed| == |all|
        invariant e != null ==> |printed| < |all| && e == all[|printed|].e && PopAll(h, below) == all[|printed| + 1..]
        decreases |h|, e != null
      {
        printed := printed + [e];
        PopAllFrom(h, below, all, |printed|);
        e := Pop();
      }
    }
  }
}
