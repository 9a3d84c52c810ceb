/**
 The merge sort of the hash table's application order, done in place on the items'
 links: runs are merged in pairs, in passes of doubled run length, until a pass
 makes one merge. It computes the sort of MergeTheory.
 */
module HashSort {
  import opened HashChains
  import opened MergeTheory

  /** The forward link of the item with index t. */
  ghost predicate NextIs(s: seq<Item>, t: nat, items: set<Item>)
    requires t < |s|
    reads items`next
  {
    s[t] in items && s[t].next == At(s, t + 1)
  }

  ghost predicate Ahead(s: seq<Item>, from: nat, to: nat, items: set<Item>)
    requires to <= |s|
    reads items`next
  {
    forall t :: from <= t < to ==> NextIs(s, t, items)
  }

  /** The list built so far: its last item still has an old forward link. */
  ghost predicate BuiltAt(out: seq<Item>, t: nat, items: set<Item>)
    requires t < |out|
    reads items`next, items`prev
  {
    out[t] in items && out[t].prev == At(out, t - 1) && (t + 1 < |out| ==> out[t].next == out[t + 1])
  }

  ghost predicate Built(out: seq<Item>, list: Item?, tail: Item?, items: set<Item>)
    reads items`next, items`prev
  {
    && list == At(out, 0) && tail == At(out, |out| - 1)
    && (forall t :: 0 <= t < |out| ==> BuiltAt(out, t, items))
  }

  /** No item of the list built so far is still to be taken from the runs i to b or j to the end. */
  ghost predicate Apart(out: seq<Item>, s: seq<Item>, i: nat, b: nat, j: nat)
    requires b <= |s|
  {
    && Distinct(out)
    && (forall t, u :: 0 <= t < |out| && (i <= u < b || j <= u < |s|) ==> out[t] != s[u])
  }

  /** The item becomes the last of the list built so far. */
  method Append(e: Item, list0: Item?, tail0: Item?, ghost out: seq<Item>, ghost items: set<Item>,
                ghost s: seq<Item>, ghost i: nat, ghost b: nat, ghost j: nat)
      returns (list: Item?, tail: Item?)
    requires Built(out, list0, tail0, items) && e in items && Distinct(out + [e])
    requires b <= |s| && Apart(out, s, i, b, j) && Ahead(s, i, b, items) && Ahead(s, j, |s|, items)
    modifies items`next, items`prev
    ensures Built(out + [e], list, tail, items)
    ensures Ahead(s, i, b, items) && Ahead(s, j, |s|, items)
  {
    list := list0;
    ghost var more := out + [e];
    assert forall t :: 0 <= t < |out| ==>
        more[t] == out[t] && more[t] != more[|out|] && (t < |out| - 1 ==> more[t] != more[|out| - 1]);
    hide Distinct;
    assert out != [] ==> BuiltAt(out, |out| - 1, items);
    if tail0 != null {
      tail0.next := e;
    } else {
      list := e;
    }
    e.prev := tail0;
    tail := e;
    forall t | 0 <= t < |more| ensures BuiltAt(more, t, items) {
      assert t < |out| ==> old(BuiltAt(out, t, items));
    }
    forall t | 0 <= t < |s| && (i <= t < b || j <= t) ensures NextIs(s, t, items) {
      assert old(NextIs(s, t, items)) && (out != [] ==> s[t] != out[|out| - 1]);
    }
  }

  /** What the merge of two runs maintains: i and j are where the runs have been taken to. */
  ghost predicate Merging(s: seq<Item>, i: nat, b: nat, j: nat, p: Item?, q: Item?, items: set<Item>)
    reads items`next
  {
    && i <= b <= j <= |s|
    && (i < b ==> p == s[i]) && q == At(s, j)
    && Ahead(s, i, b, items) && Ahead(s, j, |s|, items)
  }

  /** One item less to take, from the first run or from the second. */
  lemma TakenOne(s: seq<Item>, i: nat, b: nat, j: nat, out: seq<Item>, first: bool)
    requires Distinct(s) && i <= b <= j <= |s| && Apart(out, s, i, b, j)
    requires if first then i < b else j < |s|
    ensures var e := s[if first then i else j];
            && Distinct(out + [e])
            && Apart(out, s, if first then i + 1 else i, b, if first then j else j + 1)
            && Apart(out + [e], s, if first then i + 1 else i, b, if first then j else j + 1)
  {
  }

  /** The comparison decides which head a merge takes. */
  lemma MergeTakes(s: seq<Item>, i: nat, b: nat, j: nat, e: nat, out: seq<Item>, cmp: Cmp<Item>, first: bool)
    requires i <= b <= j <= e <= |s|
    requires if first then i < b && (j == e || cmp(s[i], s[j]) <= 0) else j < e && (i == b || cmp(s[i], s[j]) > 0)
    ensures out + Merge(s[i..b], s[j..e], cmp) ==
            if first then (out + [s[i]]) + Merge(s[i + 1..b], s[j..e], cmp)
            else (out + [s[j]]) + Merge(s[i..b], s[j + 1..e], cmp)
  {
    var x, y := s[i..b], s[j..e];
    if first {
      assert x[1..] == s[i + 1..b] && x == [x[0]] + x[1..];
    } else {
      assert y[1..] == s[j + 1..e] && y == [y[0]] + y[1..];
    }
  }

  /** The inner loop of the sort: the runs a to b and b to e are merged behind the list built so far. */
  method MergeRuns(p0: Item, q0: Item?, psize0: nat, insize: nat, list0: Item?, tail0: Item?, cmp: Cmp<Item>,
                   ghost s: seq<Item>, ghost a: nat, ghost b: nat, ghost out0: seq<Item>, ghost items: set<Item>)
      returns (q: Item?, list: Item?, tail: Item?, ghost out: seq<Item>)
    requires Distinct(s) && a < b <= |s| && psize0 == b - a && Merging(s, a, b, b, p0, q0, items)
    requires Built(out0, list0, tail0, items) && Apart(out0, s, a, b, b)
    modifies items`next, items`prev
    ensures var e := Min(b + insize, |s|);
            && out == out0 + Merge(s[a..b], s[b..e], cmp) && Merging(s, b, b, e, null, q, items)
            && Built(out, list, tail, items) && Apart(out, s, b, b, e)
  {
    var p: Item? := p0;
    q, list, tail, out := q0, list0, tail0, out0;
    var psize, qsize := psize0, insize;
    ghost var e := Min(b + insize, |s|);
    ghost var i, j := a, b;
    hide Ahead, Built, Apart, Distinct, Merge;
    while psize != 0 || (qsize != 0 && q != null)
      invariant a <= i <= b <= j <= e && psize == b - i && qsize == insize - (j - b)
      invariant Merging(s, i, b, j, p, q, items)
      invariant Built(out, list, tail, items) && Apart(out, s, i, b, j)
      invariant out + Merge(s[i..b], s[j..e], cmp) == out0 + Merge(s[a..b], s[b..e], cmp)
      decreases psize + qsize
    {
      ghost var first := psize != 0 && (qsize == 0 || q == null || cmp(p, q) <= 0);
      MergeTakes(s, i, b, j, e, out, cmp, first);
      TakenOne(s, i, b, j, out, first);
      AheadOf(s, i, b, j, items);
      var x: Item;
      if psize == 0 {
        x := q;
        q := q.next;
        qsize := qsize - 1;
      } else if qsize == 0 || q == null {
        x := p;
        p := p.next;
        psize := psize - 1;
      } else if cmp(p, q) <= 0 {
        x := p;
        p := p.next;
        psize := psize - 1;
      } else {
        x := q;
        q := q.next;
        qsize := qsize - 1;
      }
      ghost var taken := if first then i else j;
      i, j := if first then i + 1 else i, if first then j else j + 1;
      assert x == s[taken] && i <= b && j <= e && (i < b ==> p == s[i]) && q == At(s, j);
      list, tail := Append(x, list, tail, out, items, s, i, b, j);
      out := out + [x];
    }
  }

  lemma AheadOf(s: seq<Item>, i: nat, b: nat, j: nat, items: set<Item>)
    requires i <= b <= j <= |s| && Ahead(s, i, b, items) && Ahead(s, j, |s|, items)
    ensures i < b ==> s[i] in items && s[i].next == At(s, i + 1) && Ahead(s, i + 1, b, items)
    ensures j < |s| ==> s[j] in items && s[j].next == At(s, j + 1) && Ahead(s, j + 1, |s|, items)
  {
    assert i < b ==> NextIs(s, i, items);
    assert j < |s| ==> NextIs(s, j, items);
  }

  /** Steps past the first run: insize items, or fewer at the end of the list. */
  method SkipRun(p: Item, insize: nat, ghost s: seq<Item>, ghost a: nat, ghost items: set<Item>) returns
      (q: Item?, psize: nat)
    requires insize >= 1 && a < |s| && p == s[a] && Ahead(s, a, |s|, items)
    ensures psize == Min(insize, |s| - a) && q == At(s, a + psize)
  {
    q, psize := p, 0;
    var i := 0;
    while i < insize
      invariant 0 <= i <= insize && psize == i && a + i < |s| && q == s[a + i]
    {
      assert NextIs(s, a + i, items);
      psize := psize + 1;
      q := q.next;
      if q == null {
        break;
      }
      i := i + 1;
    }
  }

  lemma AheadSplit(s: seq<Item>, a: nat, b: nat, items: set<Item>)
    requires a <= b <= |s| && Ahead(s, a, |s|, items)
    ensures Ahead(s, a, b, items) && Ahead(s, b, |s|, items)
  {
  }

  /** A pass begins with the merge of the first two runs. */
  lemma PassTakes(s: seq<Item>, a: nat, b: nat, e: nat, k: nat, out: seq<Item>, cmp: Cmp<Item>)
    requires k >= 1 && a < |s| && b == a + Min(k, |s| - a) && e == Min(b + k, |s|)
    ensures out + Pass(s[a..], k, cmp) == (out + Merge(s[a..b], s[b..e], cmp)) + Pass(s[e..], k, cmp)
  {
    var r := s[a..];
    SlicesOfDrop(s, a, b, e);
    assert b - a == Min(k, |r|) && e - a == Min(2 * k, |r|);
    assert Pass(r, k, cmp) == Merge(r[..b - a], r[b - a..e - a], cmp) + Pass(r[e - a..], k, cmp);
    hide Pass, Merge;
  }

  lemma SlicesOfDrop(s: seq<Item>, a: nat, b: nat, e: nat)
    requires a <= b <= e <= |s|
    ensures s[a..][..b - a] == s[a..b] && s[a..][b - a..e - a] == s[b..e] && s[a..][e - a..] == s[e..]
  {
  }

  method CutTail(tail: Item, ghost list: Item?, ghost out: seq<Item>, ghost items: set<Item>)
    requires Built(out, list, tail, items) && Distinct(out) && out != []
    modifies items`next
    ensures list == out[0] && tail == out[|out| - 1] && tail.next == null
    ensures forall t :: 0 <= t < |out| ==> BuiltAt(out, t, items)
  {
    assert BuiltAt(out, |out| - 1, items);
    tail.next := null;
    forall t | 0 <= t < |out| ensures BuiltAt(out, t, items) {
      assert old(BuiltAt(out, t, items));
    }
  }

  /** With the last forward link cut, what was built is a list linked both ways. */
  lemma BuiltIsLinked(out: seq<Item>, list: Item?, tail: Item?, items: set<Item>)
    requires out != [] && list == out[0] && tail == out[|out| - 1]
    requires forall t :: 0 <= t < |out| ==> BuiltAt(out, t, items)
    requires out[|out| - 1].next == null
    ensures Ahead(out, 0, |out|, items) && AppLinked(out, items)
  {
    forall t | 0 <= t < |out| ensures NextIs(out, t, items) && InOrder(out, t, items) {
      assert BuiltAt(out, t, items);
    }
  }

  /** The list is built as far as the pass over the first a items. */
  ghost predicate Passing(s: seq<Item>, a: nat, k: nat, cmp: Cmp<Item>, out: seq<Item>, p: Item?, list: Item?,
      tail: Item?, items: set<Item>)
    requires k >= 1
    reads items`next, items`prev
  {
    && a <= |s| && p == At(s, a) && Distinct(s) && Ahead(s, a, |s|, items)
    && Built(out, list, tail, items) && Apart(out, s, a, a, a)
    && Pass(s, k, cmp) == out + Pass(s[a..], k, cmp)
  }

  /** One turn of the loop over pairs of runs. */
  method MergePair(p: Item, insize: nat, list0: Item?, tail0: Item?, cmp: Cmp<Item>,
                   ghost s: seq<Item>, ghost a: nat, ghost out0: seq<Item>, ghost items: set<Item>)
      returns (next: Item?, list: Item?, tail: Item?, ghost out: seq<Item>)
    requires insize >= 1 && a < |s| && Passing(s, a, insize, cmp, out0, p, list0, tail0, items)
    modifies items`next, items`prev
    ensures Passing(s, a + Min(2 * insize, |s| - a), insize, cmp, out, next, list, tail, items)
  {
    hide Ahead, Built, Distinct, Pass, Merge;
    var q, psize := SkipRun(p, insize, s, a, items);
    ghost var b := a + psize;
    AheadSplit(s, a, b, items);
    PassTakes(s, a, b, Min(b + insize, |s|), insize, out0, cmp);
    hide Apart;
    ApartSplit(out0, s, a, b);
    next, list, tail, out := MergeRuns(p, q, psize, insize, list0, tail0, cmp, s, a, b, out0, items);
    ApartAll(out, s, b, Min(b + insize, |s|));
  }

  lemma ApartSplit(out: seq<Item>, s: seq<Item>, a: nat, b: nat)
    requires a <= b <= |s| && Apart(out, s, a, a, a)
    ensures Apart(out, s, a, b, b)
  {
  }

  lemma ApartAll(out: seq<Item>, s: seq<Item>, b: nat, e: nat)
    requires b <= e <= |s| && Apart(out, s, b, b, e)
    ensures Apart(out, s, e, e, e)
  {
  }

  lemma PassBegins(s: seq<Item>, k: nat, cmp: Cmp<Item>, p: Item, items: set<Item>)
    requires k >= 1 && Distinct(s) && s != [] && p == s[0] && Ahead(s, 0, |s|, items)
    ensures Passing(s, 0, k, cmp, [], p, null, null, items)
  {
    assert s[0..] == s;
  }

  lemma PassEnds(s: seq<Item>, k: nat, cmp: Cmp<Item>, out: seq<Item>, list: Item?, tail: Item?, items: set<Item>)
    requires k >= 1 && s != [] && Passing(s, |s|, k, cmp, out, null, list, tail, items)
    ensures out == Pass(s, k, cmp) && Distinct(out) && Built(out, list, tail, items) && tail != null
  {
    assert Pass(s[|s|..], k, cmp) == [];
  }

  /** How many merges have brought a pass over n items with runs of k to position a. */
  predicate MergesSoFar(merges: nat, a: nat, n: nat, k: nat) {
    && a <= n
    && (merges == 0 ==> a == 0) && (merges == 1 ==> a == Min(2 * k, n)) && (merges >= 2 ==> n > 2 * k)
  }

  lemma NoMergeYet(n: nat, k: nat)
    ensures MergesSoFar(0, 0, n, k)
  {
  }

  lemma OneMoreMerge(merges: nat, a: nat, n: nat, k: nat)
    requires MergesSoFar(merges, a, n, k) && a < n
    ensures MergesSoFar(merges + 1, a + Min(2 * k, n - a), n, k)
  {
  }

  lemma MergesAtEnd(merges: nat, n: nat, k: nat)
    requires MergesSoFar(merges, n, n, k) && n > 0
    ensures merges <= 1 <==> n <= 2 * k
  {
  }

  /** One pass over the list leaves it in the order of the pass, and linked both ways. */
  method OnePass(start: Item, insize: nat, cmp: Cmp<Item>, ghost s: seq<Item>, ghost items: set<Item>)
      returns (list: Item, tail: Item, nmerges: nat)
    requires insize >= 1 && Distinct(s) && s != [] && start == s[0] && Ahead(s, 0, |s|, items)
    modifies items`next, items`prev
    ensures var out := Pass(s, insize, cmp);
            && list == out[0] && tail == out[|s| - 1] && Distinct(out)
            && Ahead(out, 0, |s|, items) && AppLinked(out, items)
    ensures nmerges <= 1 <==> |s| <= 2 * insize
  {
    hide Passing, Pass, Ahead, Built, Apart, AppLinked, Distinct, MergesSoFar;
    var p: Item? := start;
    var l: Item?, t: Item? := null, null;
    nmerges := 0;
    ghost var out: seq<Item> := [];
    ghost var a := 0;
    PassBegins(s, insize, cmp, start, items);
    NoMergeYet(|s|, insize);
    while p != null
      invariant a <= |s| && p == At(s, a) && Passing(s, a, insize, cmp, out, p, l, t, items)
      invariant MergesSoFar(nmerges, a, |s|, insize)
      decreases |s| - a
    {
      OneMoreMerge(nmerges, a, |s|, insize);
      nmerges := nmerges + 1;
      p, l, t, out := MergePair(p, insize, l, t, cmp, s, a, out, items);
      a := a + Min(2 * insize, |s| - a);
      PassingAt(s, a, insize, cmp, out, p, l, t, items);
    }
    MergesAtEnd(nmerges, |s|, insize);
    PassEnds(s, insize, cmp, out, l, t, items);
    CutTail(t, l, out, items);
    BuiltIsLinked(out, l, t, items);
    list, tail := l, t;
  }

  lemma PassingAt(s: seq<Item>, a: nat, k: nat, cmp: Cmp<Item>, out: seq<Item>, p: Item?, list: Item?, tail: Item?,
      items: set<Item>)
    requires k >= 1 && Passing(s, a, k, cmp, out, p, list, tail, items)
    ensures p == At(s, a)
  {
  }
}
