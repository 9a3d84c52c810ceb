/**
 Binary heaps as sequences: the meaning of the priority queue's operations, and
 what they promise for every strict weak order of priorities.

 Slot i of the queue's array, counted from 1, is entry i - 1 of the sequence.
 */
module HeapTheory {

  type Below = (nat, nat) -> bool

  datatype Entry<T> = Entry(e: T, pri: nat)

  /** The comparison says which of two priorities ranks lower. */
  ghost predicate StrictWeakOrder(below: Below) {
    && (forall a :: !below(a, a))
    && (forall a, b, c :: below(a, b) && below(b, c) ==> below(a, c))
    && (forall a, b, c :: below(a, c) ==> below(a, b) || below(b, c))
  }

  ghost predicate Ordered<T>(h: seq<Entry<T>>, below: Below, i: nat)
    requires 2 <= i <= |h|
  {
    !below(h[i / 2 - 1].pri, h[i - 1].pri)
  }

  /** No entry ranks above its parent. */
  ghost predicate Heap<T>(h: seq<Entry<T>>, below: Below) {
    forall i :: 2 <= i <= |h| ==> Ordered(h, below, i)
  }

  /** No two slots hold the same element. */
  ghost predicate Distinct<T>(h: seq<Entry<T>>) {
    forall i, j :: 0 <= i < j < |h| ==> h[i].e != h[j].e
  }

  // ---------- the operations ----------

  function Swap<T>(h: seq<Entry<T>>, i: nat, j: nat): (r: seq<Entry<T>>)
    requires 1 <= i <= |h| && 1 <= j <= |h|
    ensures |r| == |h|
  {
    h[i - 1 := h[j - 1]][j - 1 := h[i - 1]]
  }

  function BubbleUp<T>(h: seq<Entry<T>>, below: Below, i: nat): (r: seq<Entry<T>>)
    requires 1 <= i <= |h|
    ensures |r| == |h|
    decreases i
  {
    if i > 1 && below(h[i / 2 - 1].pri, h[i - 1].pri) then BubbleUp(Swap(h, i, i / 2), below, i / 2) else h
  }

  /** The child of slot i that ranks highest, the left one of equals, or 0 for a leaf. */
  function MaxChild<T>(h: seq<Entry<T>>, below: Below, i: nat): (c: nat)
    requires 1 <= i
    ensures c == 0 || (c <= |h| && (c == 2 * i || c == 2 * i + 1))
    ensures c == 0 <==> |h| < 2 * i
  {
    var left := 2 * i;
    if left > |h| then 0
    else if left + 1 <= |h| && below(h[left - 1].pri, h[left].pri) then left + 1
    else left
  }

  function PercolateDown<T>(h: seq<Entry<T>>, below: Below, i: nat): (r: seq<Entry<T>>)
    requires 1 <= i
    ensures |r| == |h|
    decreases |h| - i
  {
    var c := MaxChild(h, below, i);
    if c != 0 && below(h[i - 1].pri, h[c - 1].pri) then PercolateDown(Swap(h, i, c), below, c) else h
  }

  function Insert<T>(h: seq<Entry<T>>, below: Below, x: Entry<T>): seq<Entry<T>> {
    BubbleUp(h + [x], below, |h| + 1)
  }

  /** The entry of slot i was changed from one that had priority `was`. */
  function Restore<T>(h: seq<Entry<T>>, below: Below, i: nat, was: nat): (r: seq<Entry<T>>)
    requires 1 <= i <= |h|
    ensures |r| == |h|
  {
    if below(was, h[i - 1].pri) then BubbleUp(h, below, i) else PercolateDown(h, below, i)
  }

  function ChangePriority<T>(h: seq<Entry<T>>, below: Below, i: nat, pri: nat): seq<Entry<T>>
    requires 1 <= i <= |h|
  {
    Restore(h[i - 1 := h[i - 1].(pri := pri)], below, i, h[i - 1].pri)
  }

  /** The last entry takes the place of the removed one. */
  function Remove<T>(h: seq<Entry<T>>, below: Below, i: nat): (r: seq<Entry<T>>)
    requires 1 <= i <= |h|
    ensures |r| == |h| - 1
  {
    var n := |h| - 1;
    if i == |h| then h[..n] else Restore(h[..n][i - 1 := h[n]], below, i, h[i - 1].pri)
  }

  function Pop<T>(h: seq<Entry<T>>, below: Below): (r: seq<Entry<T>>)
    requires h != []
    ensures |r| == |h| - 1
  {
    var n := |h| - 1;
    if n == 0 then [] else PercolateDown(h[..n][0 := h[n]], below, 1)
  }

  /** The order in which popping until empty returns the entries. */
  function PopAll<T>(h: seq<Entry<T>>, below: Below): (r: seq<Entry<T>>)
    ensures |r| == |h|
    decreases |h|
  {
    if h == [] then [] else [h[0]] + PopAll(Pop(h, below), below)
  }

  // ---------- contents ----------

  lemma SwapKeepsContents<T>(h: seq<Entry<T>>, i: nat, j: nat)
    requires 1 <= i <= |h| && 1 <= j <= |h|
    ensures multiset(Swap(h, i, j)) == multiset(h)
  {
  }

  lemma {:induction false} BubbleKeepsContents<T>(h: seq<Entry<T>>, below: Below, i: nat)
    requires 1 <= i <= |h|
    ensures multiset(BubbleUp(h, below, i)) == multiset(h)
    decreases i
  {
    if i > 1 && below(h[i / 2 - 1].pri, h[i - 1].pri) {
      SwapKeepsContents(h, i, i / 2);
      BubbleKeepsContents(Swap(h, i, i / 2), below, i / 2);
    }
  }

  lemma {:induction false} PercolateKeepsContents<T>(h: seq<Entry<T>>, below: Below, i: nat)
    requires 1 <= i
    ensures multiset(PercolateDown(h, below, i)) == multiset(h)
    decreases |h| - i
  {
    var c := MaxChild(h, below, i);
    if c != 0 && below(h[i - 1].pri, h[c - 1].pri) {
      SwapKeepsContents(h, i, c);
      PercolateKeepsContents(Swap(h, i, c), below, c);
    }
  }

  lemma RestoreKeepsContents<T>(h: seq<Entry<T>>, below: Below, i: nat, was: nat)
    requires 1 <= i <= |h|
    ensures multiset(Restore(h, below, i, was)) == multiset(h)
  {
    BubbleKeepsContents(h, below, i);
    PercolateKeepsContents(h, below, i);
  }

  lemma ReplaceByLast<T>(h: seq<Entry<T>>, i: nat)
    requires 1 <= i < |h|
    ensures multiset(h[..|h| - 1][i - 1 := h[|h| - 1]]) == multiset(h) - multiset{h[i - 1]}
  {
    assert h == h[..|h| - 1] + [h[|h| - 1]];
  }

  // ---------- heap order ----------

  /** Heap order but for the pair of slot i and its parent; the children of i do not rank above that parent. */
  ghost predicate HeapButAbove<T>(h: seq<Entry<T>>, below: Below, i: nat) {
    && (forall j :: 2 <= j <= |h| && j != i ==> Ordered(h, below, j))
    && (forall j :: 4 <= j <= |h| && j / 2 == i ==> !below(h[i / 2 - 1].pri, h[j - 1].pri))
  }

  /** Heap order but for the pairs of slot i and its children, which do not rank above the parent of i. */
  ghost predicate HeapButBelow<T>(h: seq<Entry<T>>, below: Below, i: nat) {
    && (forall j :: 2 <= j <= |h| && j / 2 != i ==> Ordered(h, below, j))
    && (forall j :: 4 <= j <= |h| && j / 2 == i ==> !below(h[i / 2 - 1].pri, h[j - 1].pri))
  }

  lemma {:induction false} BubbleRestoresHeap<T>(h: seq<Entry<T>>, below: Below, i: nat)
    requires StrictWeakOrder(below)
    requires 1 <= i <= |h| && HeapButAbove(h, below, i)
    ensures Heap(BubbleUp(h, below, i), below)
    decreases i
  {
    if i > 1 && below(h[i / 2 - 1].pri, h[i - 1].pri) {
      var p := i / 2;
      var g := Swap(h, i, p);
      forall j | 2 <= j <= |g| && j != p
        ensures Ordered(g, below, j)
      {
        if j != i && j / 2 != i && j / 2 != p { assert Ordered(h, below, j); }
        if j / 2 == p && j != i { assert Ordered(h, below, j); }
      }
      forall j | 4 <= j <= |g| && j / 2 == p
        ensures !below(g[p / 2 - 1].pri, g[j - 1].pri)
      {
        assert Ordered(h, below, p);
        if j != i { assert Ordered(h, below, j); }
      }
      BubbleRestoresHeap(g, below, p);
    }
  }

  /** Slot j does not rank above slot i. */
  predicate NotAbove<T>(h: seq<Entry<T>>, below: Below, i: nat, j: nat)
    requires 1 <= i <= |h| && 1 <= j <= |h|
  {
    !below(h[i - 1].pri, h[j - 1].pri)
  }

  /** No child of a slot ranks above the one that is chosen, and one before it ranks below. */
  lemma MaxChildIsHighest<T>(h: seq<Entry<T>>, below: Below, i: nat, j: nat)
    requires StrictWeakOrder(below) && 1 <= i && 2 <= j <= |h| && j / 2 == i
    ensures var c := MaxChild(h, below, i);
            c != 0 && NotAbove(h, below, c, j) && (j < c ==> below(h[j - 1].pri, h[c - 1].pri))
  {
    assert j == 2 * i || j == 2 * i + 1;
  }

  /** Swapping a slot with its highest child moves the disorder below that child. */
  lemma SwapDown<T>(h: seq<Entry<T>>, below: Below, i: nat, c: nat)
    requires StrictWeakOrder(below) && 1 <= i <= |h| && HeapButBelow(h, below, i)
    requires c == MaxChild(h, below, i) != 0 && below(h[i - 1].pri, h[c - 1].pri)
    ensures HeapButBelow(Swap(h, i, c), below, c)
  {
    hide StrictWeakOrder, MaxChild;
    var g := Swap(h, i, c);
    forall j | 2 <= j <= |g| && j / 2 != c ensures Ordered(g, below, j) {
      if j / 2 == i { SwapOrdersChild(h, below, i, c, j); }
      else if j == i { assert c / 2 == i; }
      else { assert Ordered(h, below, j); }
    }
    forall j | 4 <= j <= |g| && j / 2 == c ensures !below(g[c / 2 - 1].pri, g[j - 1].pri) {
      assert Ordered(h, below, j);
    }
  }

  lemma SwapOrdersChild<T>(h: seq<Entry<T>>, below: Below, i: nat, c: nat, j: nat)
    requires StrictWeakOrder(below) && 1 <= i <= |h| && 2 <= j <= |h| && j / 2 == i
    requires c == MaxChild(h, below, i) != 0 && below(h[i - 1].pri, h[c - 1].pri)
    ensures Ordered(Swap(h, i, c), below, j)
  {
    hide MaxChild;
    MaxChildIsHighest(h, below, i, j);
    assert c / 2 == i;
  }

  /** A slot that no child ranks above is in order with its children. */
  lemma InOrderWithChild<T>(h: seq<Entry<T>>, below: Below, i: nat, j: nat)
    requires StrictWeakOrder(below) && 1 <= i <= |h| && 2 <= j <= |h| && j / 2 == i
    requires var c := MaxChild(h, below, i); c == 0 || !below(h[i - 1].pri, h[c - 1].pri)
    ensures Ordered(h, below, j)
  {
    hide MaxChild;
    MaxChildIsHighest(h, below, i, j);
  }

  lemma {:induction false} PercolateRestoresHeap<T>(h: seq<Entry<T>>, below: Below, i: nat)
    requires StrictWeakOrder(below)
    requires 1 <= i <= |h| && HeapButBelow(h, below, i)
    ensures Heap(PercolateDown(h, below, i), below)
    decreases |h| - i
  {
    hide StrictWeakOrder, MaxChild;
    var c := MaxChild(h, below, i);
    if c != 0 && below(h[i - 1].pri, h[c - 1].pri) {
      SwapDown(h, below, i, c);
      PercolateRestoresHeap(Swap(h, i, c), below, c);
    } else {
      forall j | 2 <= j <= |h| ensures Ordered(h, below, j) {
        if j / 2 == i { InOrderWithChild(h, below, i, j); }
      }
    }
  }

  /** Changing the priority of one entry of a heap and moving it up or down gives a heap again. */
  lemma RestoreRestoresHeap<T>(h: seq<Entry<T>>, below: Below, i: nat, x: Entry<T>)
    requires StrictWeakOrder(below) && Heap(h, below)
    requires 1 <= i <= |h|
    ensures Heap(Restore(h[i - 1 := x], below, i, h[i - 1].pri), below)
  {
    var g, was := h[i - 1 := x], h[i - 1].pri;
    forall j | 2 <= j <= |g| && j / 2 != i && j != i ensures Ordered(g, below, j) {
      assert Ordered(h, below, j);
    }
    forall j | 4 <= j <= |g| && j / 2 == i ensures !below(g[i / 2 - 1].pri, g[j - 1].pri) {
      assert Ordered(h, below, j) && Ordered(h, below, i);
    }
    if below(was, x.pri) {
      forall j | 2 <= j <= |g| && j / 2 == i ensures Ordered(g, below, j) {
        assert Ordered(h, below, j);
      }
      BubbleRestoresHeap(g, below, i);
    } else {
      if i >= 2 { assert Ordered(h, below, i); }
      PercolateRestoresHeap(g, below, i);
    }
  }

  // ---------- where an entry goes ----------

  /** Slot i lies in the subtree of slot r. */
  predicate Under(r: nat, i: nat) {
    i >= r && (i == r || Under(r, i / 2))
  }

  /** Slot j is on the way from slot r down to slot i. */
  predicate Between(r: nat, j: nat, i: nat) {
    Under(r, j) && Under(j, i)
  }

  /** What is below a slot is not above it. */
  lemma {:induction false} UnderOrder(r: nat, i: nat)
    ensures Under(r, i) ==> r <= i
  {
  }

  /** The way to a slot is the way to its parent, and the slot. */
  lemma {:induction false} BetweenParent(a: nat, j: nat, i: nat)
    requires 1 <= a && i >= 2 && Under(a, i / 2)
    ensures Between(a, j, i) <==> j == i || Between(a, j, i / 2)
  {
  }

  /**
   An entry that moves up ends in a slot a on the way to the root: the first whose parent it does not rank above. It
   ranks above all that stood between, each of which moves down to the next slot of the way; no other moves.
   */
  lemma {:induction false} BubbleUpIs<T>(h: seq<Entry<T>>, below: Below, i: nat) returns (a: nat)
    requires 1 <= i <= |h|
    ensures 1 <= a && Under(a, i)
    ensures a > 1 ==> !below(h[a / 2 - 1].pri, h[i - 1].pri)
    ensures var r := BubbleUp(h, below, i);
            && r[a - 1] == h[i - 1]
            && forall j :: 1 <= j <= |h| && j != a ==>
                 if Between(a, j, i) then r[j - 1] == h[j / 2 - 1] && below(h[j / 2 - 1].pri, h[i - 1].pri)
                 else r[j - 1] == h[j - 1]
    decreases i
  {
    if i > 1 && below(h[i / 2 - 1].pri, h[i - 1].pri) {
      var g := Swap(h, i, i / 2);
      a := BubbleUpIs(g, below, i / 2);
      var r := BubbleUp(h, below, i);
      forall j | 1 <= j <= |h| && j != a
        ensures if Between(a, j, i) then r[j - 1] == h[j / 2 - 1] && below(h[j / 2 - 1].pri, h[i - 1].pri)
                else r[j - 1] == h[j - 1]
      {
        BetweenParent(a, j, i);
        UnderOrder(a, j);
        UnderOrder(j, i / 2);
        if j == i {
          assert !Between(a, i, i / 2);
          assert r[j - 1] == g[j - 1] == h[i / 2 - 1];
        } else if Between(a, j, i / 2) {
          assert j / 2 < i / 2;
          assert g[j / 2 - 1] == h[j / 2 - 1];
        }
      }
    } else {
      a := i;
    }
  }

  /** Of two slots above a third, the higher one is above the lower one. */
  lemma {:induction false} UnderChain(a: nat, b: nat, c: nat)
    requires Under(a, c) && Under(b, c) && a <= b
    ensures Under(a, b)
    decreases c
  {
    if c != b { UnderChain(a, b, c / 2); }
  }

  lemma {:induction false} UnderParent(r: nat, k: nat)
    requires r >= 1 && k / 2 == r
    ensures Under(r, k)
  {
  }

  /** The way down to a slot under a child is the parent and the way from that child. */
  lemma BetweenChild(i: nat, k: nat, c: nat, low: nat)
    requires 1 <= i && k / 2 == i && Under(k, low)
    ensures Between(i, c, low) <==> c == i || Between(k, c, low)
  {
    hide Under;
    UnderParent(i, k);
    UnderTrans(i, k, low);
    if Under(i, c) && Under(c, low) && c != i {
      UnderOrder(i, c);
      if c < k {
        UnderChain(c, k, low);
        StepUnder(c, k, i);
        UnderOrder(c, i);
      } else {
        UnderChain(k, c, low);
      }
    }
    if Under(k, c) { UnderTrans(i, k, c); }
  }

  lemma StepUnder(c: nat, k: nat, i: nat)
    requires Under(c, k) && c < k && k / 2 == i
    ensures Under(c, i)
  {
  }

  lemma {:induction false} UnderTrans(a: nat, b: nat, c: nat)
    requires Under(a, b) && Under(b, c)
    ensures Under(a, c)
    decreases c
  {
    UnderOrder(a, b);
    if c != b { UnderTrans(a, b, c / 2); }
  }

  /** The entry of slot k has moved up to its parent: it ranks above the one that moves down, and above its sibling. */
  ghost predicate MovedUp<T>(h: seq<Entry<T>>, r: seq<Entry<T>>, below: Below, i: nat, k: nat)
    requires 1 <= i <= |h| == |r| && 2 <= k <= |h|
  {
    && r[k / 2 - 1] == h[k - 1] && below(h[i - 1].pri, h[k - 1].pri)
    && forall m :: 2 <= m <= |h| && m / 2 == k / 2 ==>
         NotAbove(h, below, k, m) && (m < k ==> below(h[m - 1].pri, h[k - 1].pri))
  }

  /**
   An entry that moves down ends in a slot c with no child that it ranks below. On the way down to c each entry, which
   is its parent's highest child, the left one of equals, moves up to its parent; no other moves.
   */
  lemma {:induction false} PercolateDownIs<T>(h: seq<Entry<T>>, below: Below, i: nat) returns (c: nat)
    requires StrictWeakOrder(below) && 1 <= i <= |h|
    ensures i <= c <= |h| && Under(i, c)
    ensures forall j :: 2 <= j <= |h| && j / 2 == c ==> NotAbove(h, below, i, j)
    ensures var r := PercolateDown(h, below, i);
            && r[c - 1] == h[i - 1]
            && (forall k :: 2 <= k <= |h| && k != i && Between(i, k, c) ==> MovedUp(h, r, below, i, k))
            && (forall j :: 1 <= j <= |h| && !Between(i, j, c) ==> r[j - 1] == h[j - 1])
    decreases |h| - i
  {
    hide StrictWeakOrder, MaxChild, Under;
    var k := MaxChild(h, below, i);
    if k != 0 && below(h[i - 1].pri, h[k - 1].pri) {
      var g := Swap(h, i, k);
      c := PercolateDownIs(g, below, k);
      UnderParent(i, k);
      UnderTrans(i, k, c);
      var r := PercolateDown(h, below, i);
      forall m | 2 <= m <= |h| && m != i && Between(i, m, c) ensures MovedUp(h, r, below, i, m) {
        BetweenChild(i, k, m, c);
        UnderOrder(k, m);
        if m == k {
          HighestMovesUp(h, r, below, i, k, c);
        } else {
          StepUnder(k, m, m / 2);
          UnderOrder(k, m / 2);
          LowerMovesUp(h, g, r, below, i, k, m);
        }
      }
      forall j | 1 <= j <= |h| && !Between(i, j, c) ensures r[j - 1] == h[j - 1] {
        BetweenChild(i, k, j, c);
        UnderSelf(k);
      }
      forall j | 2 <= j <= |h| && j / 2 == c ensures NotAbove(h, below, i, j) {
        assert NotAbove(g, below, k, j);
      }
    } else {
      c := i;
      UnderSelf(i);
      forall j | 2 <= j <= |h| && j / 2 == i ensures NotAbove(h, below, i, j) {
        InOrderWithChild(h, below, i, j);
      }
      forall m | 2 <= m <= |h| && m != i && Between(i, m, i) ensures false {
        UnderOrder(i, m);
        UnderOrder(m, i);
      }
    }
  }

  lemma UnderSelf(i: nat)
    ensures Under(i, i)
  {
  }

  lemma HighestMovesUp<T>(h: seq<Entry<T>>, r: seq<Entry<T>>, below: Below, i: nat, k: nat, c: nat)
    requires StrictWeakOrder(below) && 1 <= i <= |h| == |r| && k == MaxChild(h, below, i) != 0
    requires below(h[i - 1].pri, h[k - 1].pri)
    requires !Between(k, i, c) ==> r[i - 1] == Swap(h, i, k)[i - 1]
    ensures MovedUp(h, r, below, i, k)
  {
    hide StrictWeakOrder, MaxChild, Under;
    UnderOrder(k, i);
    forall m | 2 <= m <= |h| && m / 2 == k / 2
      ensures NotAbove(h, below, k, m) && (m < k ==> below(h[m - 1].pri, h[k - 1].pri))
    {
      MaxChildIsHighest(h, below, i, m);
    }
  }

  /** What moves up below the child has not been touched by the swap with the child. */
  lemma LowerMovesUp<T>(h: seq<Entry<T>>, g: seq<Entry<T>>, r: seq<Entry<T>>, below: Below, i: nat, k: nat, m: nat)
    requires 1 <= i < k <= |h| == |r| && k / 2 == i && g == Swap(h, i, k) && k < m <= |h| && k <= m / 2
    requires MovedUp(g, r, below, k, m)
    ensures MovedUp(h, r, below, i, m)
  {
    forall n | 2 <= n <= |h| && n / 2 == m / 2
      ensures NotAbove(h, below, m, n) && (n < m ==> below(h[n - 1].pri, h[m - 1].pri))
    {
      assert NotAbove(g, below, m, n);
    }
  }

  // ---------- the main results ----------

  lemma InsertIsHeap<T>(h: seq<Entry<T>>, below: Below, x: Entry<T>)
    requires StrictWeakOrder(below) && Heap(h, below)
    ensures Heap(Insert(h, below, x), below)
    ensures multiset(Insert(h, below, x)) == multiset(h) + multiset{x}
  {
    var g := h + [x];
    forall j | 2 <= j <= |g| && j != |g| ensures Ordered(g, below, j) {
      assert Ordered(h, below, j);
    }
    BubbleRestoresHeap(g, below, |g|);
    BubbleKeepsContents(g, below, |g|);
  }

  lemma ChangePriorityIsHeap<T>(h: seq<Entry<T>>, below: Below, i: nat, pri: nat)
    requires StrictWeakOrder(below) && Heap(h, below)
    requires 1 <= i <= |h|
    ensures Heap(ChangePriority(h, below, i, pri), below)
    ensures multiset(ChangePriority(h, below, i, pri)) ==
            multiset(h) - multiset{h[i - 1]} + multiset{h[i - 1].(pri := pri)}
  {
    var x := h[i - 1].(pri := pri);
    RestoreRestoresHeap(h, below, i, x);
    RestoreKeepsContents(h[i - 1 := x], below, i, h[i - 1].pri);
  }

  lemma PrefixIsHeap<T>(h: seq<Entry<T>>, below: Below, n: nat)
    requires Heap(h, below) && n <= |h|
    ensures Heap(h[..n], below)
  {
    forall j | 2 <= j <= n ensures Ordered(h[..n], below, j) { assert Ordered(h, below, j); }
  }

  lemma RemoveIsHeap<T>(h: seq<Entry<T>>, below: Below, i: nat)
    requires StrictWeakOrder(below) && Heap(h, below)
    requires 1 <= i <= |h|
    ensures Heap(Remove(h, below, i), below)
    ensures multiset(Remove(h, below, i)) == multiset(h) - multiset{h[i - 1]}
  {
    hide StrictWeakOrder, Heap, Restore;
    var n := |h| - 1;
    assert h == h[..n] + [h[n]];
    PrefixIsHeap(h, below, n);
    if i < |h| {
      RestoreRestoresHeap(h[..n], below, i, h[n]);
      RestoreKeepsContents(h[..n][i - 1 := h[n]], below, i, h[i - 1].pri);
      ReplaceByLast(h, i);
    }
  }

  /** The first entry of a heap ranks highest. */
  lemma {:induction false} RootIsHighest<T>(h: seq<Entry<T>>, below: Below, i: nat)
    requires StrictWeakOrder(below) && Heap(h, below)
    requires 1 <= i <= |h|
    ensures !below(h[0].pri, h[i - 1].pri)
  {
    if i > 1 {
      RootIsHighest(h, below, i / 2);
      assert Ordered(h, below, i);
    }
  }

  lemma PopIsHeap<T>(h: seq<Entry<T>>, below: Below)
    requires StrictWeakOrder(below) && Heap(h, below) && h != []
    ensures Heap(Pop(h, below), below)
    ensures multiset(Pop(h, below)) == multiset(h) - multiset{h[0]}
    ensures forall x :: x in multiset(h) ==> !below(h[0].pri, x.pri)
  {
    var n := |h| - 1;
    forall x | x in multiset(h) ensures !below(h[0].pri, x.pri) {
      var k :| 0 <= k < |h| && h[k] == x;
      RootIsHighest(h, below, k + 1);
    }
    if n > 0 {
      var g := h[..n][0 := h[n]];
      forall j | 2 <= j <= n && j / 2 != 1 ensures Ordered(g, below, j) {
        assert Ordered(h, below, j);
      }
      PercolateRestoresHeap(g, below, 1);
      PercolateKeepsContents(g, below, 1);
      ReplaceByLast(h, 1);
    } else {
      assert h == [h[0]];
    }
  }

  /** What ranks no higher than x ranks no higher wherever it stands. */
  lemma NoneRanksAbove<T>(h: seq<Entry<T>>, s: seq<Entry<T>>, below: Below, x: nat)
    requires multiset(s) <= multiset(h) && forall y :: y in multiset(h) ==> !below(x, y.pri)
    ensures forall b :: 0 <= b < |s| ==> !below(x, s[b].pri)
  {
    forall b | 0 <= b < |s| ensures !below(x, s[b].pri) { assert s[b] in multiset(s); }
  }

  /** No entry ranks above one before it. */
  ghost predicate Descending<T>(s: seq<Entry<T>>, below: Below) {
    forall a, b :: 0 <= a < b < |s| ==> !below(s[a].pri, s[b].pri)
  }

  lemma DescendingFrom<T>(x: Entry<T>, s: seq<Entry<T>>, below: Below)
    requires Descending(s, below) && forall b :: 0 <= b < |s| ==> !below(x.pri, s[b].pri)
    ensures Descending([x] + s, below)
  {
  }

  /** Popping until empty sorts: every entry comes out once, and none after one that it ranks above. */
  lemma {:induction false} PopAllSorts<T>(h: seq<Entry<T>>, below: Below)
    requires StrictWeakOrder(below) && Heap(h, below)
    ensures multiset(PopAll(h, below)) == multiset(h) && Descending(PopAll(h, below), below)
    decreases |h|
  {
    hide Pop, Heap, StrictWeakOrder, Descending;
    if h == [] {
      NothingDescends(PopAll(h, below), below);
    } else {
      PopIsHeap(h, below);
      assert h[0] in multiset(h);
      var rest := PopAll(Pop(h, below), below);
      PopAllSorts(Pop(h, below), below);
      NoneRanksAbove(h, rest, below, h[0].pri);
      DescendingFrom(h[0], rest, below);
    }
  }

  lemma NothingDescends<T>(s: seq<Entry<T>>, below: Below)
    requires s == []
    ensures Descending(s, below)
  {
  }

  // ---------- the validity check ----------

  /** What the check that begins at a slot computes. */
  predicate SubtreeIsValid<T>(h: seq<Entry<T>>, below: Below, i: nat)
    requires 1 <= i
    decreases |h| - i
  {
    && (2 * i <= |h| ==> !below(h[i - 1].pri, h[2 * i - 1].pri) && SubtreeIsValid(h, below, 2 * i))
    && (2 * i + 1 <= |h| ==> !below(h[i - 1].pri, h[2 * i].pri) && SubtreeIsValid(h, below, 2 * i + 1))
  }

  lemma {:induction false} AllUnderRoot(i: nat)
    requires 1 <= i
    ensures Under(1, i)
  {
    if i > 1 { AllUnderRoot(i / 2); }
  }

  lemma {:induction false} UnderChild(r: nat, i: nat)
    requires 1 <= r
    ensures Under(r, i) <==> i == r || Under(2 * r, i) || Under(2 * r + 1, i)
  {
    if i > r { UnderChild(r, i / 2); }
  }

  lemma {:induction false} SubtreeIsValidExactly<T>(h: seq<Entry<T>>, below: Below, r: nat)
    requires 1 <= r
    ensures SubtreeIsValid(h, below, r) <==>
            forall i :: 2 <= i <= |h| && i != r && Under(r, i) ==> Ordered(h, below, i)
    decreases |h| - r
  {
    forall i | 2 <= i <= |h| && i != r
      ensures Under(r, i) <==> Under(2 * r, i) || Under(2 * r + 1, i)
    {
      UnderChild(r, i);
    }
    if 2 * r <= |h| {
      SubtreeIsValidExactly(h, below, 2 * r);
      assert Ordered(h, below, 2 * r) <==> !below(h[r - 1].pri, h[2 * r - 1].pri);
    }
    if 2 * r + 1 <= |h| {
      SubtreeIsValidExactly(h, below, 2 * r + 1);
      assert Ordered(h, below, 2 * r + 1) <==> !below(h[r - 1].pri, h[2 * r].pri);
    }
  }

  /** The validity check answers yes exactly for the sequences in heap order. */
  lemma IsValidExactly<T>(h: seq<Entry<T>>, below: Below)
    ensures SubtreeIsValid(h, below, 1) <==> Heap(h, below)
  {
    SubtreeIsValidExactly(h, below, 1);
    forall i | 2 <= i <= |h| ensures Under(1, i) { AllUnderRoot(i); }
  }
}
