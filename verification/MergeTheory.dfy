/**
 Bottom-up merge sort on sequences, and why it is a stable sort: what one merge,
 one pass over all runs, and all passes do, for any comparison that is total and transitive.
 */
module MergeTheory {

  /** The sign convention of the comparison callback: not positive means that the first may come first. */
  type Cmp<!T> = (T, T) -> int

  function Min(a: nat, b: nat): nat {
    if a <= b then a else b
  }

  /** Of two equal heads the one of the first run is taken. */
  function Merge<T>(x: seq<T>, y: seq<T>, cmp: Cmp<T>): (r: seq<T>)
    ensures |r| == |x| + |y|
    decreases |x| + |y|
  {
    if x == [] then y
    else if y == [] then x
    else if cmp(x[0], y[0]) <= 0 then [x[0]] + Merge(x[1..], y, cmp)
    else [y[0]] + Merge(x, y[1..], cmp)
  }

  /** One pass: runs of length k are merged in pairs. */
  function Pass<T>(s: seq<T>, k: nat, cmp: Cmp<T>): (r: seq<T>)
    requires k >= 1
    ensures |r| == |s|
    decreases |s|
  {
    if s == [] then []
    else
      var b, e := Min(k, |s|), Min(2 * k, |s|);
      Merge(s[..b], s[b..e], cmp) + Pass(s[e..], k, cmp)
  }

  /** All passes, until one of them makes a single merge. */
  function SortFrom<T>(s: seq<T>, k: nat, cmp: Cmp<T>): (r: seq<T>)
    requires k >= 1
    ensures |r| == |s|
    decreases |s| - k
  {
    if |s| <= 2 * k then Pass(s, k, cmp) else SortFrom(Pass(s, k, cmp), 2 * k, cmp)
  }

  /** Among these elements the comparison is total and transitive. */
  ghost predicate TotalPreorder<T>(items: set<T>, cmp: Cmp<T>) {
    && (forall a, b :: a in items && b in items ==> cmp(a, b) <= 0 || cmp(b, a) <= 0)
    && (forall a, b, c :: a in items && b in items && c in items && cmp(a, b) <= 0 && cmp(b, c) <= 0 ==> cmp(a, c) <= 0)
  }

  /** a may stand before b: it is not greater, and if they are equal it stood before b at first. */
  ghost predicate Precedes<T>(a: T, b: T, cmp: Cmp<T>, at: T -> int) {
    cmp(a, b) <= 0 && (cmp(b, a) <= 0 ==> at(a) < at(b))
  }

  ghost predicate StablySorted<T>(s: seq<T>, cmp: Cmp<T>, at: T -> int) {
    forall i, j :: 0 <= i < j < |s| ==> Precedes(s[i], s[j], cmp, at)
  }

  // ---------- contents ----------

  lemma {:induction false} MergeKeepsContents<T>(x: seq<T>, y: seq<T>, cmp: Cmp<T>)
    ensures multiset(Merge(x, y, cmp)) == multiset(x) + multiset(y)
    decreases |x| + |y|
  {
    if x != [] && y != [] {
      assert x == [x[0]] + x[1..] && y == [y[0]] + y[1..];
      if cmp(x[0], y[0]) <= 0 { MergeKeepsContents(x[1..], y, cmp); } else { MergeKeepsContents(x, y[1..], cmp); }
    }
  }

  lemma {:induction false} PassKeepsContents<T>(s: seq<T>, k: nat, cmp: Cmp<T>)
    requires k >= 1
    ensures multiset(Pass(s, k, cmp)) == multiset(s)
    decreases |s|
  {
    if s != [] {
      var b, e := Min(k, |s|), Min(2 * k, |s|);
      assert s == s[..b] + s[b..e] + s[e..];
      MergeKeepsContents(s[..b], s[b..e], cmp);
      PassKeepsContents(s[e..], k, cmp);
    }
  }

  /** Sorting permutes, whatever the comparison. */
  lemma {:induction false} SortKeepsContents<T>(s: seq<T>, k: nat, cmp: Cmp<T>)
    requires k >= 1
    ensures multiset(SortFrom(s, k, cmp)) == multiset(s)
    decreases |s| - k
  {
    PassKeepsContents(s, k, cmp);
    if |s| > 2 * k { SortKeepsContents(Pass(s, k, cmp), 2 * k, cmp); }
  }

  // ---------- order ----------

  ghost predicate AllIn<T>(s: seq<T>, items: set<T>) {
    forall i :: 0 <= i < |s| ==> s[i] in items
  }

  ghost predicate PrecedesAll<T>(h: T, s: seq<T>, cmp: Cmp<T>, at: T -> int) {
    forall i :: 0 <= i < |s| ==> Precedes(h, s[i], cmp, at)
  }

  /** The head of a merge precedes the rest of its own run and all of the other. */
  lemma HeadPrecedes<T>(x: seq<T>, y: seq<T>, cmp: Cmp<T>, at: T -> int, items: set<T>)
    requires TotalPreorder(items, cmp) && AllIn(x, items) && AllIn(y, items) && x != [] && y != []
    requires StablySorted(x, cmp, at) && StablySorted(y, cmp, at)
    requires AllBefore(x, y, at)
    ensures cmp(x[0], y[0]) <= 0 ==> PrecedesAll(x[0], x[1..], cmp, at) && PrecedesAll(x[0], y, cmp, at)
    ensures cmp(x[0], y[0]) > 0 ==> PrecedesAll(y[0], x, cmp, at) && PrecedesAll(y[0], y[1..], cmp, at)
  {
    assert forall i :: 1 <= i < |x| ==> Precedes(x[0], x[i], cmp, at);
    assert forall i :: 1 <= i < |y| ==> Precedes(y[0], y[i], cmp, at);
  }

  lemma PrecedesMerged<T>(h: T, x: seq<T>, y: seq<T>, cmp: Cmp<T>, at: T -> int)
    requires PrecedesAll(h, x, cmp, at) && PrecedesAll(h, y, cmp, at)
    ensures PrecedesAll(h, Merge(x, y, cmp), cmp, at)
  {
    MergeKeepsContents(x, y, cmp);
    var m := Merge(x, y, cmp);
    hide Precedes, Merge;
    forall k | 0 <= k < |m| ensures Precedes(h, m[k], cmp, at) {
      assert m[k] in multiset(m);
      if m[k] in x { } else { assert m[k] in y; }
    }
  }

  lemma SortedCons<T>(h: T, s: seq<T>, cmp: Cmp<T>, at: T -> int)
    requires StablySorted(s, cmp, at) && PrecedesAll(h, s, cmp, at)
    ensures StablySorted([h] + s, cmp, at)
  {
    hide Precedes;
    var r := [h] + s;
    forall i, j | 0 <= i < j < |r| ensures Precedes(r[i], r[j], cmp, at) {
      assert i > 0 ==> Precedes(s[i - 1], s[j - 1], cmp, at);
    }
  }

  /** Merging two sorted runs, the first of which stood before the second. */
  lemma {:induction false} MergeSorts<T>(x: seq<T>, y: seq<T>, cmp: Cmp<T>, at: T -> int, items: set<T>)
    requires TotalPreorder(items, cmp) && AllIn(x, items) && AllIn(y, items)
    requires StablySorted(x, cmp, at) && StablySorted(y, cmp, at)
    requires AllBefore(x, y, at)
    ensures StablySorted(Merge(x, y, cmp), cmp, at)
    decreases |x| + |y|
  {
    if x != [] && y != [] {
      HeadPrecedes(x, y, cmp, at, items);
      hide Precedes, TotalPreorder;
      if cmp(x[0], y[0]) <= 0 {
        MergeSorts(x[1..], y, cmp, at, items);
        PrecedesMerged(x[0], x[1..], y, cmp, at);
        SortedCons(x[0], Merge(x[1..], y, cmp), cmp, at);
      } else {
        MergeSorts(x, y[1..], cmp, at, items);
        PrecedesMerged(y[0], x, y[1..], cmp, at);
        SortedCons(y[0], Merge(x, y[1..], cmp), cmp, at);
      }
    }
  }

  /** Every block of k elements is sorted and holds what stood there at first. */
  ghost predicate BlocksSorted<T>(s: seq<T>, s0: seq<T>, k: nat, cmp: Cmp<T>, at: T -> int)
    requires k >= 1
    decreases |s|
  {
    && |s| == |s0|
    && (s != [] ==>
          var b := Min(k, |s|);
          && multiset(s[..b]) == multiset(s0[..b])
          && StablySorted(s[..b], cmp, at)
          && BlocksSorted(s[b..], s0[b..], k, cmp, at))
  }

  /** Everything in x stood before everything in y at first. */
  ghost predicate AllBefore<T>(x: seq<T>, y: seq<T>, at: T -> int) {
    forall i, j :: 0 <= i < |x| && 0 <= j < |y| ==> at(x[i]) < at(y[j])
  }

  ghost predicate Increasing<T>(s: seq<T>, at: T -> int) {
    forall i, j :: 0 <= i < j < |s| ==> at(s[i]) < at(s[j])
  }

  lemma {:induction false} PassSortsBlocks<T>(s: seq<T>, s0: seq<T>, k: nat, cmp: Cmp<T>, at: T -> int, items: set<T>)
    requires k >= 1 && TotalPreorder(items, cmp) && AllIn(s, items) && Increasing(s0, at)
    requires BlocksSorted(s, s0, k, cmp, at)
    ensures BlocksSorted(Pass(s, k, cmp), s0, 2 * k, cmp, at)
    decreases |s|
  {
    if s != [] {
      var b, e := Min(k, |s|), Min(2 * k, |s|);
      FirstBlocks(s, s0, k, cmp, at);
      hide BlocksSorted, Precedes, TotalPreorder, StablySorted, Increasing;
      MergeSorts(s[..b], s[b..e], cmp, at, items);
      MergeKeepsContents(s[..b], s[b..e], cmp);
      PassSortsBlocks(s[e..], s0[e..], k, cmp, at, items);
      BlocksCons(Merge(s[..b], s[b..e], cmp), Pass(s[e..], k, cmp), s0, 2 * k, cmp, at);
    }
  }

  /** The first two blocks and the rest. */
  lemma FirstBlocks<T>(s: seq<T>, s0: seq<T>, k: nat, cmp: Cmp<T>, at: T -> int)
    requires k >= 1 && s != [] && Increasing(s0, at)
    requires BlocksSorted(s, s0, k, cmp, at)
    ensures var b, e := Min(k, |s|), Min(2 * k, |s|);
            && |s| == |s0|
            && StablySorted(s[..b], cmp, at) && StablySorted(s[b..e], cmp, at)
            && multiset(s[..b]) + multiset(s[b..e]) == multiset(s0[..e])
            && AllBefore(s[..b], s[b..e], at)
            && Increasing(s0[e..], at) && BlocksSorted(s[e..], s0[e..], k, cmp, at)
  {
    hide StablySorted, BlocksSorted, Precedes, Increasing, Min, AllBefore;
    var b, e := Min(k, |s|), Min(2 * k, |s|);
    MinFacts(k, |s|);
    FirstBlock(s, s0, k, cmp, at);
    SecondBlock(s, s0, k, b, e, cmp, at);
    IncreasingSlices(s0, b, e, at);
    BlocksApart(s[..b], s[b..e], s0[..b], s0[b..e], at);
    SameContents(s[..b], s[b..e], s0, b, e);
  }

  lemma SameContents<T>(x: seq<T>, y: seq<T>, s0: seq<T>, b: nat, e: nat)
    requires b <= e <= |s0| && multiset(x) == multiset(s0[..b]) && multiset(y) == multiset(s0[b..e])
    ensures multiset(x) + multiset(y) == multiset(s0[..e])
  {
    assert s0[..e] == s0[..b] + s0[b..e];
  }

  lemma MinFacts(k: nat, n: nat)
    requires k >= 1
    ensures Min(k, n) <= Min(2 * k, n) <= n && Min(k, n - Min(k, n)) == Min(2 * k, n) - Min(k, n)
  {
  }

  lemma FirstBlock<T>(s: seq<T>, s0: seq<T>, k: nat, cmp: Cmp<T>, at: T -> int)
    requires k >= 1 && BlocksSorted(s, s0, k, cmp, at)
    ensures var b := Min(k, |s|);
            && |s| == |s0| && multiset(s[..b]) == multiset(s0[..b])
            && StablySorted(s[..b], cmp, at) && BlocksSorted(s[b..], s0[b..], k, cmp, at)
  {
  }

  lemma SecondBlock<T>(s: seq<T>, s0: seq<T>, k: nat, b: nat, e: nat, cmp: Cmp<T>, at: T -> int)
    requires k >= 1 && b <= e <= |s| == |s0| && e - b == Min(k, |s| - b)
    requires BlocksSorted(s[b..], s0[b..], k, cmp, at)
    ensures multiset(s[b..e]) == multiset(s0[b..e]) && StablySorted(s[b..e], cmp, at)
    ensures BlocksSorted(s[e..], s0[e..], k, cmp, at)
  {
    hide BlocksSorted, StablySorted;
    FirstBlock(s[b..], s0[b..], k, cmp, at);
    SliceOfDrop(s, b, e);
    SliceOfDrop(s0, b, e);
  }

  lemma SliceOfDrop<T>(s: seq<T>, b: nat, e: nat)
    requires b <= e <= |s|
    ensures s[b..][..e - b] == s[b..e] && s[b..][e - b..] == s[e..] && s[..e] == s[..b] + s[b..e]
  {
  }

  lemma IncreasingSlices<T>(s: seq<T>, b: nat, e: nat, at: T -> int)
    requires b <= e <= |s| && Increasing(s, at)
    ensures Increasing(s[e..], at)
    ensures AllBefore(s[..b], s[b..e], at)
  {
  }

  lemma EmptyIsSorted<T>(cmp: Cmp<T>, at: T -> int)
    ensures StablySorted([], cmp, at)
  {
  }

  lemma BlocksApart<T>(x: seq<T>, y: seq<T>, x0: seq<T>, y0: seq<T>, at: T -> int)
    requires multiset(x) == multiset(x0) && multiset(y) == multiset(y0)
    requires AllBefore(x0, y0, at)
    ensures AllBefore(x, y, at)
  {
    forall i, j | 0 <= i < |x| && 0 <= j < |y| ensures at(x[i]) < at(y[j]) {
      assert x[i] in multiset(x0) && y[j] in multiset(y0);
      var m :| 0 <= m < |x0| && x0[m] == x[i];
      var n :| 0 <= n < |y0| && y0[n] == y[j];
    }
  }

  lemma BlocksCons<T>(m: seq<T>, rest: seq<T>, s0: seq<T>, k: nat, cmp: Cmp<T>, at: T -> int)
    requires k >= 1 && 1 <= |m| == Min(k, |s0|) && |m| + |rest| == |s0|
    requires StablySorted(m, cmp, at) && multiset(m) == multiset(s0[..|m|])
    requires BlocksSorted(rest, s0[|m|..], k, cmp, at)
    ensures BlocksSorted(m + rest, s0, k, cmp, at)
  {
    var r := m + rest;
    assert r[..|m|] == m && r[|m|..] == rest;
  }

  lemma {:induction false} SingleBlocks<T>(s: seq<T>, cmp: Cmp<T>, at: T -> int)
    ensures BlocksSorted(s, s, 1, cmp, at)
    decreases |s|
  {
    if s != [] { SingleBlocks(s[1..], cmp, at); }
  }

  lemma {:induction false} SortsFromBlocks<T>(s: seq<T>, s0: seq<T>, k: nat, cmp: Cmp<T>, at: T -> int, items: set<T>)
    requires k >= 1 && TotalPreorder(items, cmp) && AllIn(s, items) && Increasing(s0, at)
    requires BlocksSorted(s, s0, k, cmp, at)
    ensures StablySorted(SortFrom(s, k, cmp), cmp, at)
    decreases |s| - k
  {
    PassSortsBlocks(s, s0, k, cmp, at, items);
    PassKeepsContents(s, k, cmp);
    var r := Pass(s, k, cmp);
    if |s| <= 2 * k {
      assert r[..|r|] == r;
      EmptyIsSorted<T>(cmp, at);
    } else {
      forall i | 0 <= i < |r| ensures r[i] in items { assert r[i] in multiset(r); }
      SortsFromBlocks(r, s0, 2 * k, cmp, at, items);
    }
  }

  /**
   The sort is stable: in the result, of any two elements the one that may stand first does, and equal ones keep
   their order.
   */
  lemma SortIsStable<T>(s: seq<T>, cmp: Cmp<T>, at: T -> int, items: set<T>)
    requires TotalPreorder(items, cmp) && AllIn(s, items) && Increasing(s, at)
    ensures StablySorted(SortFrom(s, 1, cmp), cmp, at)
  {
    SingleBlocks(s, cmp, at);
    SortsFromBlocks(s, s, 1, cmp, at, items);
  }
}
