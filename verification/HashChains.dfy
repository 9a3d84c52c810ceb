/**
 The two linkings of the intrusive hash table, and the bookkeeping of which item
 lies in which bucket chain.
 */
module HashChains {
  /** An application's item with its embedded hash handle. */
  class Item {
    const key: string
    var hashv: nat
    var prev: Item?
    var next: Item?
    var hhPrev: Item?
    var hhNext: Item?

    constructor (key: string)
      ensures this.key == key
    {
      this.key := key;
    }
  }

  datatype Bucket = Bucket(head: Item?, count: nat, expandMult: nat)

  type HashFunction = string -> nat

  ghost function At(s: seq<Item>, i: int): Item? {
    if 0 <= i < |s| then s[i] else null
  }

  ghost predicate Distinct(s: seq<Item>) {
    forall i, j :: 0 <= i < j < |s| ==> s[i] != s[j]
  }

  ghost function Without(s: seq<Item>, k: nat): seq<Item>
    requires k < |s|
  {
    s[..k] + s[k + 1..]
  }

  lemma EndsWithout(s: seq<Item>, k: nat)
    requires k < |s|
    ensures At(Without(s, k), 0) == if k == 0 then At(s, 1) else s[0]
    ensures |s| >= 2 ==> Without(s, k)[|s| - 2] == if k == |s| - 1 then s[|s| - 2] else s[|s| - 1]
  {
  }

  lemma WithoutAt(s: seq<Item>, k: nat)
    requires k < |s|
    ensures |Without(s, k)| == |s| - 1
    ensures forall i :: 0 <= i < |s| - 1 ==> Without(s, k)[i] == s[if i < k then i else i + 1]
  {
  }

  ghost function SetOf(s: seq<Item>): set<Item> {
    set x | x in s
  }

  lemma {:induction false} SizeOfSet(s: seq<Item>)
    requires Distinct(s)
    ensures |SetOf(s)| == |s|
  {
    if s == [] {
      assert SetOf(s) == {};
    } else {
      var n := |s| - 1;
      SizeOfSet(s[..n]);
      assert s == s[..n] + [s[n]];
      assert SetOf(s) == SetOf(s[..n]) + {s[n]};
    }
  }

  // ---------- application order ----------

  ghost predicate InOrder(order: seq<Item>, i: nat, items: set<Item>)
    requires i < |order|
    reads items`prev, items`next
  {
    order[i] in items && order[i].prev == At(order, i - 1) && order[i].next == At(order, i + 1)
  }

  ghost predicate AppLinked(order: seq<Item>, items: set<Item>)
    reads items`prev, items`next
  {
    forall i :: 0 <= i < |order| ==> InOrder(order, i, items)
  }

  /** The links around an item that is left out are those of the list without it. */
  lemma LinkedWithout(s: seq<Item>, k: nat, items: set<Item>)
    requires k < |s|
    requires forall i :: 0 <= i < |s| && i != k ==> s[i] in items
    requires forall i :: 0 <= i < |s| && i != k ==> s[i].next == if i == k - 1 then At(s, k + 1) else At(s, i + 1)
    requires forall i :: 0 <= i < |s| && i != k ==> s[i].prev == if i == k + 1 then At(s, k - 1) else At(s, i - 1)
    ensures AppLinked(Without(s, k), items)
  {
    WithoutAt(s, k);
    var t := Without(s, k);
    hide Without;
    forall i | 0 <= i < |t|
      ensures InOrder(t, i, items)
    {
      assert t[i] == s[if i < k then i else i + 1];
    }
  }

  // ---------- buckets ----------

  ghost predicate InChain(c: seq<Item>, j: nat, items: set<Item>)
    requires j < |c|
    reads items`hhPrev, items`hhNext
  {
    c[j] in items && c[j].hhPrev == At(c, j - 1) && c[j].hhNext == At(c, j + 1)
  }

  ghost predicate ChainLinked(c: seq<Item>, items: set<Item>)
    reads items`hhPrev, items`hhNext
  {
    forall j :: 0 <= j < |c| ==> InChain(c, j, items)
  }

  /** Every bucket's head and count are those of its chain, and the chain is linked both ways. */
  ghost predicate Linked(bk: array<Bucket>, chains: seq<seq<Item>>, items: set<Item>)
    reads bk, items`hhPrev, items`hhNext
  {
    && bk.Length == |chains|
    && (forall b :: 0 <= b < |chains| ==>
          bk[b].head == At(chains[b], 0) && bk[b].count == |chains[b]| && ChainLinked(chains[b], items))
  }

  ghost function Home(x: Item, hash: HashFunction, n: nat): nat
    requires n >= 1
  {
    hash(x.key) % n
  }

  ghost function Total(chains: seq<seq<Item>>): nat {
    if chains == [] then 0 else Total(chains[..|chains| - 1]) + |chains[|chains| - 1]|
  }

  /** The chains hold exactly these items, each once and in the bucket of its hash value. */
  ghost predicate Placed(chains: seq<seq<Item>>, items: set<Item>, hash: HashFunction) {
    && |chains| >= 1
    && (forall b, j :: 0 <= b < |chains| && 0 <= j < |chains[b]| ==>
          chains[b][j] in items && Home(chains[b][j], hash, |chains|) == b)
    && (forall x :: x in items ==> x in chains[Home(x, hash, |chains|)])
    && (forall b :: 0 <= b < |chains| ==> Distinct(chains[b]))
    && Total(chains) == |items|
  }

  lemma {:induction false} TotalOfUpdate(chains: seq<seq<Item>>, b: nat, c: seq<Item>)
    requires b < |chains|
    ensures Total(chains[b := c]) == Total(chains) - |chains[b]| + |c|
  {
    var n := |chains| - 1;
    if b == n {
      assert chains[b := c][..n] == chains[..n];
    } else {
      TotalOfUpdate(chains[..n], b, c);
      assert chains[b := c][..n] == chains[..n][b := c];
    }
  }

  lemma {:induction false} NoneIsPlaced(chains: seq<seq<Item>>, hash: HashFunction)
    requires |chains| >= 1 && forall b :: 0 <= b < |chains| ==> chains[b] == []
    ensures Placed(chains, {}, hash)
  {
    TotalOfEmpty(chains);
  }

  lemma {:induction false} TotalOfEmpty(chains: seq<seq<Item>>)
    requires forall b :: 0 <= b < |chains| ==> chains[b] == []
    ensures Total(chains) == 0
  {
    if chains != [] { TotalOfEmpty(chains[..|chains| - 1]); }
  }

  lemma OneMoreIsPlaced(chains: seq<seq<Item>>, items: set<Item>, hash: HashFunction, x: Item)
    requires Placed(chains, items, hash) && x !in items
    ensures var b := Home(x, hash, |chains|);
            Placed(chains[b := [x] + chains[b]], items + {x}, hash)
  {
    var b := Home(x, hash, |chains|);
    var more := chains[b := [x] + chains[b]];
    TotalOfUpdate(chains, b, [x] + chains[b]);
    forall y | y in items + {x} ensures y in more[Home(y, hash, |more|)] {
      if y != x { assert y in chains[Home(y, hash, |chains|)]; }
    }
  }

  lemma OneLessIsPlaced(chains: seq<seq<Item>>, items: set<Item>, hash: HashFunction, b: nat, k: nat)
    requires Placed(chains, items, hash) && b < |chains| && k < |chains[b]|
    ensures Placed(chains[b := Without(chains[b], k)], items - {chains[b][k]}, hash)
  {
    hide Total, Without;
    var x, c := chains[b][k], Without(chains[b], k);
    var less := chains[b := c];
    WithoutAt(chains[b], k);
    TotalOfUpdate(chains, b, c);
    forall y | y in items - {x} ensures y in less[Home(y, hash, |less|)] {
      assert y in chains[Home(y, hash, |chains|)];
      InWithout(chains[b], k, y);
    }
    forall d, j | 0 <= d < |less| && 0 <= j < |less[d]|
      ensures less[d][j] in items - {x} && Home(less[d][j], hash, |less|) == d
    {
      if d == b { assert less[d][j] == chains[b][if j < k then j else j + 1]; }
    }
  }

  lemma InWithout(s: seq<Item>, k: nat, y: Item)
    requires k < |s|
    ensures y in s && y != s[k] ==> y in Without(s, k)
  {
    if y in s && y != s[k] {
      var i :| 0 <= i < |s| && s[i] == y;
      assert Without(s, k)[if i < k then i else i - 1] == y;
    }
  }

  /** The item that a lookup of this key finds in a chain, or null. */
  ghost function FirstWith(c: seq<Item>, key: string): Item? {
    if c == [] then null else if c[0].key == key then c[0] else FirstWith(c[1..], key)
  }

  lemma {:induction false} FirstWithIsThere(c: seq<Item>, key: string)
    ensures var x := FirstWith(c, key);
            if x == null then forall y :: y in c ==> y.key != key else x in c && x.key == key
  {
    if c != [] { FirstWithIsThere(c[1..], key); }
  }
}
