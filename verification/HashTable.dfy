/**
 The intrusive hash table: items carry their links, buckets hold chains of items,
 and a doubly linked list keeps the order in which the application added them.
 The hash function is arbitrary, allocation succeeds, and there is no bloom filter.
 */
module HashTable {
  import opened Arithmetic
  import opened Bits
  import opened HashChains
  import opened HashSort
  import opened MergeTheory

  const INITIAL_NUM_BUCKETS := 32
  const INITIAL_NUM_BUCKETS_LOG2 := 5
  const BKT_CAPACITY_THRESH := 10

  /** Items of a bucket beyond the ideal chain length, over all buckets. */
  ghost function Excess(chains: seq<seq<Item>>, ideal: nat): nat {
    if chains == [] then 0
    else
      var n := |chains[|chains| - 1]|;
      Excess(chains[..|chains| - 1], ideal) + if n > ideal then n - ideal else 0
  }

  lemma {:induction false} ExcessOfUpdate(chains: seq<seq<Item>>, ideal: nat, b: nat, c: seq<Item>)
    requires b < |chains| && |c| == |chains[b]| + 1
    ensures Excess(chains[b := c], ideal) == Excess(chains, ideal) + if |c| > ideal then 1 else 0
  {
    var n := |chains| - 1;
    if b == n {
      assert chains[b := c][..n] == chains[..n];
    } else {
      ExcessOfUpdate(chains[..n], ideal, b, c);
      assert chains[b := c][..n] == chains[..n][b := c];
    }
  }

  lemma {:induction false} NoExcess(chains: seq<seq<Item>>, ideal: nat)
    requires forall b :: 0 <= b < |chains| ==> chains[b] == []
    ensures Excess(chains, ideal) == 0
  {
    if chains != [] { NoExcess(chains[..|chains| - 1], ideal); }
  }

  /** The multiplier of a bucket with n items after an expansion with ideal chain length m. */
  function Multiplier(n: nat, m: nat): nat
    requires m >= 1
  {
    if n <= m then 0 else Min(n - m, CeilDiv(n, m))
  }

  /** One more item: the multiplier grows exactly when the count exceeds the ideal and multiplier times ideal. */
  lemma MultiplierOfOneMore(n: nat, m: nat)
    requires m >= 1
    ensures var e := Multiplier(n, m);
            Multiplier(n + 1, m) == if n + 1 > m && n + 1 > e * m then e + 1 else e
  {
    hide CeilDiv;
    CeilOfOneMore(n, m);
    CeilAbove(n + 1, m, Multiplier(n, m));
  }

  lemma CeilOfOneMore(n: nat, m: nat)
    requires m >= 1
    ensures CeilDiv(n, m) <= CeilDiv(n + 1, m) <= CeilDiv(n, m) + 1
    ensures n >= m ==> 1 <= CeilDiv(n, m) && 2 <= CeilDiv(n + 1, m)
  {
    CeilIs(n, m, CeilDiv(n, m));
    CeilIs(n + 1, m, CeilDiv(n, m));
    CeilIs(n, m, CeilDiv(n + 1, m) - 1);
    CeilIs(n + 1, m, CeilDiv(n + 1, m));
    CeilIs(n, m, 1);
    CeilIs(n + 1, m, 2);
  }

  lemma CeilAbove(n: nat, d: nat, m: nat)
    requires d >= 1
    ensures m < CeilDiv(n, d) <==> n > m * d
  {
    CeilIs(n, d, m + 1);
  }

  lemma CeilIs(n: nat, d: nat, m: nat)
    requires d >= 1
    ensures m <= CeilDiv(n, d) <==> m * d < n + d
  {
    var a := n + d - 1;
    assert a == (a / d) * d + a % d;
    BelowBlocks(a, d, m);
  }

  /** The chain of a bucket begins with x instead of what it began with. */
  method PushFront(bk: array<Bucket>, b: nat, x: Item, bumpMult: nat, ghost chains: seq<seq<Item>>,
      ghost items: set<Item>)
    requires Linked(bk, chains, items) && b < bk.Length
    requires x in items
    requires forall d, j :: 0 <= d < |chains| && 0 <= j < |chains[d]| ==> chains[d][j] != x
    requires forall d, j :: 0 <= d < |chains| && d != b && 0 <= j < |chains[d]| && chains[b] != [] ==>
               chains[d][j] != chains[b][0]
    requires Distinct(chains[b])
    modifies bk, items`hhPrev, items`hhNext
    ensures Linked(bk, chains[b := [x] + chains[b]], items)
    ensures bk[b].expandMult == old(bk[b].expandMult) + bumpMult && bk[b].count == old(bk[b].count) + 1
    ensures forall d :: 0 <= d < bk.Length && d != b ==> bk[d] == old(bk[d])
    ensures forall y :: y in items && y != x ==> y.hhNext == old(y.hhNext)
  {
    var head := bk[b].head;
    assert head != null ==> InChain(chains[b], 0, items);
    x.hhNext := head;
    x.hhPrev := null;
    if head != null {
      head.hhPrev := x;
    }
    bk[b] := Bucket(x, bk[b].count + 1, bk[b].expandMult + bumpMult);
    ghost var more := chains[b := [x] + chains[b]];
    forall d | 0 <= d < |more| ensures ChainLinked(more[d], items) {
      if d == b {
        forall j | 0 <= j < |more[b]| ensures InChain(more[b], j, items) {
          if j > 0 { assert old(InChain(chains[b], j - 1, items)) && more[b][j] == chains[b][j - 1]; }
        }
      } else {
        forall j | 0 <= j < |more[d]| ensures InChain(more[d], j, items) {
          assert old(InChain(chains[d], j, items));
        }
      }
    }
  }

  /** No other chain has an item of chain b. */
  ghost predicate OnlyHere(chains: seq<seq<Item>>, b: nat)
    requires b < |chains|
  {
    forall d, j, i :: 0 <= d < |chains| && d != b && 0 <= j < |chains[d]| && 0 <= i < |chains[b]| ==>
      chains[d][j] != chains[b][i]
  }

  /** The chain of a bucket loses its item k. */
  method DropFromChain(bk: array<Bucket>, b: nat, x: Item, ghost k: nat, ghost chains: seq<seq<Item>>,
      ghost items: set<Item>)
    requires Linked(bk, chains, items) && b < bk.Length && k < |chains[b]| && x == chains[b][k]
    requires Distinct(chains[b])
    requires OnlyHere(chains, b)
    modifies bk, items`hhPrev, items`hhNext
    ensures Linked(bk, chains[b := Without(chains[b], k)], items - {x})
    ensures forall d :: 0 <= d < bk.Length ==> bk[d].expandMult == old(bk[d].expandMult)
  {
    ghost var c := chains[b];
    assert InChain(c, k, items);
    if k > 0 { assert InChain(c, k - 1, items); }
    if k + 1 < |c| { assert InChain(c, k + 1, items); }
    var bucket := bk[b];
    bk[b] := bucket.(count := bucket.count - 1);
    if bucket.head == x {
      bk[b] := bk[b].(head := x.hhNext);
    }
    if x.hhPrev != null {
      assert x.hhPrev == c[k - 1];
      x.hhPrev.hhNext := x.hhNext;
    }
    if x.hhNext != null {
      assert x.hhNext == c[k + 1];
      x.hhNext.hhPrev := x.hhPrev;
    }
    ghost var less := chains[b := Without(c, k)];
    forall d | 0 <= d < |less| ensures ChainLinked(less[d], items - {x}) {
      if d == b {
        forall j | 0 <= j < |less[b]| ensures InChain(less[b], j, items - {x}) {
          var i := if j < k then j else j + 1;
          assert less[b][j] == c[i] && old(InChain(c, i, items));
        }
      } else {
        forall j | 0 <= j < |less[d]| ensures InChain(less[d], j, items - {x}) {
          assert old(InChain(chains[d], j, items)) && less[d][j] != c[k];
        }
      }
    }
  }

  /** The neighbours of an item in application order are linked to each other. */
  method UnlinkItem(x: Item, ghost k: nat, ghost order: seq<Item>, ghost items: set<Item>)
    requires AppLinked(order, items) && k < |order| && order[k] == x
    requires forall i :: 0 <= i < |order| && i != k ==> order[i] != x
    requires k > 0 ==> forall i :: 0 <= i < |order| && i != k - 1 ==> order[i] != order[k - 1]
    requires k + 1 < |order| ==> forall i :: 0 <= i < |order| && i != k + 1 ==> order[i] != order[k + 1]
    modifies items`prev, items`next
    ensures AppLinked(Without(order, k), items - {x})
  {
    ghost var left, right := At(order, k - 1), At(order, k + 1);
    assert InOrder(order, k, items);
    if k > 0 { assert InOrder(order, k - 1, items); }
    if k + 1 < |order| { assert InOrder(order, k + 1, items); }
    if x.prev != null {
      x.prev.next := x.next;
    }
    if x.next != null {
      x.next.prev := x.prev;
    }
    forall i | 0 <= i < |order|
      ensures order[i].next == if i == k - 1 then right else At(order, i + 1)
      ensures order[i].prev == if i == k + 1 then left else At(order, i - 1)
      ensures order[i] in items
    {
      assert old(InOrder(order, i, items));
    }
    LinkedWithout(order, k, items - {x});
  }

  /** The lookup of a key in a table with this content. */
  ghost function Lookup(m: map<string, Item>, key: string): Item? {
    if key in m then m[key] else null
  }

  /** The finite map that the items in application order stand for; of two items with a key, the later counts. */
  ghost function MapOf(order: seq<Item>): map<string, Item> {
    if order == [] then map[] else MapOf(order[..|order| - 1])[order[|order| - 1].key := order[|order| - 1]]
  }

  ghost predicate UniqueKeys(order: seq<Item>) {
    forall i, j :: 0 <= i < j < |order| ==> order[i].key != order[j].key
  }

  lemma {:induction false} InMapOf(order: seq<Item>, key: string)
    requires UniqueKeys(order)
    ensures key in MapOf(order) <==> exists i :: 0 <= i < |order| && order[i].key == key
    ensures forall i :: 0 <= i < |order| && order[i].key == key ==> key in MapOf(order) && MapOf(order)[key] == order[i]
  {
    if order != [] {
      var n := |order| - 1;
      InMapOf(order[..n], key);
      if i :| 0 <= i < n && order[i].key == key { assert order[..n][i].key == key; }
    }
  }

  /** Adding an item with a fresh key adds one entry. */
  lemma MapOfMore(order: seq<Item>, x: Item)
    requires UniqueKeys(order) && x.key !in MapOf(order)
    ensures UniqueKeys(order + [x]) && MapOf(order + [x]) == MapOf(order)[x.key := x]
  {
    assert (order + [x])[..|order|] == order;
    InMapOf(order, x.key);
  }

  /** Deleting an item deletes the entry of its key. */
  lemma MapOfLess(order: seq<Item>, k: nat)
    requires UniqueKeys(order) && k < |order|
    ensures UniqueKeys(Without(order, k)) && MapOf(Without(order, k)) == MapOf(order) - {order[k].key}
  {
    hide MapOf, Without;
    var less := Without(order, k);
    WithoutAt(order, k);
    forall key
      ensures key in MapOf(less) <==> key in MapOf(order) && key != order[k].key
      ensures key in MapOf(less) ==> MapOf(less)[key] == MapOf(order)[key]
    {
      MapOfLessAt(order, k, key);
    }
  }

  lemma MapOfLessAt(order: seq<Item>, k: nat, key: string)
    requires UniqueKeys(order) && k < |order| && UniqueKeys(Without(order, k))
    ensures var less := Without(order, k);
            && (key in MapOf(less) <==> key in MapOf(order) && key != order[k].key)
            && (key in MapOf(less) ==> MapOf(less)[key] == MapOf(order)[key])
  {
    hide MapOf, Without;
    var less := Without(order, k);
    WithoutAt(order, k);
    InMapOf(less, key);
    InMapOf(order, key);
    if i :| 0 <= i < |order| && order[i].key == key && i != k {
      assert less[if i < k then i else i - 1] == order[i];
    }
  }

  /** The walk along a chain for a key and its hash value. */
  method FindInBucket(head: Item?, hashv: nat, key: string, ghost c: seq<Item>, ghost items: set<Item>,
      ghost hash: HashFunction)
      returns (out: Item?)
    requires ChainLinked(c, items) && head == At(c, 0) && hashv == hash(key)
    requires forall y :: y in items ==> y.hashv == hash(y.key)
    ensures out == FirstWith(c, key)
  {
    out := head;
    ghost var j := 0;
    while out != null
      invariant 0 <= j <= |c| && out == At(c, j)
      invariant FirstWith(c[j..], key) == FirstWith(c, key)
      decreases |c| - j
    {
      assert InChain(c, j, items);
      if out.hashv == hashv && out.key == key {
        break;
      }
      out := out.hhNext;
      j := j + 1;
    }
  }

  ghost predicate NextLinked(c: seq<Item>, k: nat, items: set<Item>)
    requires k < |c|
    reads items`hhNext
  {
    c[k] in items && c[k].hhNext == At(c, k + 1)
  }

  class Table {
    const hash: HashFunction
    var head: Item?
    var tail: Item?
    var buckets: array<Bucket>
    var numBuckets: nat
    var log2NumBuckets: nat
    var numItems: nat
    var idealChainMaxlen: nat
    var nonidealItems: nat
    var ineffExpands: nat
    var noexpand: bool

    ghost var order: seq<Item>
    ghost var items: set<Item>
    ghost var chains: seq<seq<Item>>

    /** The list in application order: head, tail and the links of every item. */
    ghost predicate ListOk()
      reads this`head, this`tail, this`order, this`items, items`prev, items`next
    {
      && Distinct(order) && items == SetOf(order)
      && head == At(order, 0)
      && (order != [] ==> tail == order[|order| - 1])
      && AppLinked(order, items)
    }

    /**
     The buckets hold these items: their number, the counts, the chains, and each item in the bucket of its hash
     value.
     */
    ghost predicate TableOf(held: set<Item>)
      reads this`buckets, this`numBuckets, this`log2NumBuckets, this`numItems, this`chains
      reads buckets, held`hhPrev, held`hhNext, held`hashv
    {
      && buckets.Length == numBuckets == Pow2(log2NumBuckets)
      && Linked(buckets, chains, held)
      && Placed(chains, held, hash)
      && numItems == |held|
      && (forall x :: x in held ==> x.hashv == hash(x.key))
    }

    ghost predicate TableOk()
      reads this`buckets, this`numBuckets, this`log2NumBuckets, this`numItems, this`items, this`chains
      reads buckets, items`hhPrev, items`hhNext, items`hashv
    {
      TableOf(items)
    }

    ghost predicate Valid()
      reads this, buckets, items
    {
      ListOk() && (order != [] ==> TableOk())
    }

    constructor (hash: HashFunction)
      ensures Valid() && order == [] && this.hash == hash
    {
      this.hash := hash;
      head, tail := null, null;
      buckets := new Bucket[0];
      numBuckets, log2NumBuckets, numItems := 0, 0, 0;
      idealChainMaxlen, nonidealItems, ineffExpands, noexpand := 0, 0, 0, false;
      order, items, chains := [], {}, [];
    }

    /** The bucket of a hash value: the value masked with the number of buckets less one. */
    method ToBucket(hashv: nat, n: nat, ghost k: nat) returns (b: nat)
      requires n == Pow2(k)
      ensures b == hashv % n < n
    {
      MaskIsMod(hashv, k);
      b := And(hashv, n - 1);
    }

    // ---------- expansion ----------

    /** Items of the first i chains and of the first j of chain i are in the new buckets. */
    ghost predicate Moved(moved: seq<seq<Item>>, done: set<Item>, i: nat, j: nat)
      reads this`numBuckets, this`items, this`chains
    {
      && |chains| == numBuckets && |moved| == 2 * numBuckets
      && Placed(moved, done, hash) && done <= items
      && (forall b, k :: 0 <= b < |chains| && 0 <= k < |chains[b]| ==>
            chains[b][k] in items && (chains[b][k] in done <==> b < i || (b == i && k < j)))
    }

    /** The others are still linked as they were. */
    ghost predicate Unmoved(i: nat, j: nat)
      reads this`items, this`chains, items`hhNext
    {
      forall b, k :: 0 <= b < |chains| && 0 <= k < |chains[b]| && (b > i || (b == i && k >= j)) ==>
        NextLinked(chains[b], k, items)
    }

    ghost predicate Counted(bk: array<Bucket>, moved: seq<seq<Item>>)
      reads this`idealChainMaxlen, this`nonidealItems, bk
    {
      && bk.Length == |moved| && idealChainMaxlen >= 1
      && nonidealItems == Excess(moved, idealChainMaxlen)
      && (forall d :: 0 <= d < |moved| ==> bk[d].expandMult == Multiplier(|moved[d]|, idealChainMaxlen))
    }

    ghost predicate Rehashed(bk: array<Bucket>, moved: seq<seq<Item>>, done: set<Item>, i: nat, j: nat)
      reads this`numBuckets, this`items, this`chains, this`idealChainMaxlen, this`nonidealItems
      reads bk, items`hhPrev, items`hhNext
    {
      Moved(moved, done, i, j) && Linked(bk, moved, items) && Unmoved(i, j) && Counted(bk, moved)
    }

    /** One turn of the inner loop of the expansion. */
    method MoveItem(bk: array<Bucket>, thh: Item, ghost moved: seq<seq<Item>>, ghost done: set<Item>, ghost i: nat,
        ghost j: nat)
        returns (ghost moved': seq<seq<Item>>)
      requires Placed(chains, items, hash) && Rehashed(bk, moved, done, i, j)
      requires numBuckets == Pow2(log2NumBuckets)
      requires i < numBuckets == |chains| && j < |chains[i]| && thh == chains[i][j] && thh.hashv == hash(thh.key)
      modifies this`nonidealItems, bk, items`hhPrev, items`hhNext
      ensures Rehashed(bk, moved', done + {thh}, i, j + 1)
    {
      hide Placed, Moved, Linked, Excess, Multiplier;
      var b := ToBucket(thh.hashv, numBuckets * 2, log2NumBuckets + 1);
      MovedOneMore(moved, done, i, j);
      LinkedCount(bk, moved, items, b);
      UnmovedApart(i, j);
      MayPush(moved, done, thh);
      moved' := moved[b := [thh] + moved[b]];
      var bump := AccountFor(bk, b, moved, thh);
      label before:
      PushFront(bk, b, thh, bump, moved, items);
      assert Unmoved(i, j + 1) by {
        forall d, k | 0 <= d < |chains| && 0 <= k < |chains[d]| && (d > i || (d == i && k >= j + 1))
          ensures NextLinked(chains[d], k, items)
        {
          assert old@before(NextLinked(chains[d], k, items));
        }
      }
      assert Counted(bk, moved');
    }

    /** The statistics for one more item in a new bucket, which is about to be pushed there. */
    method AccountFor(bk: array<Bucket>, b: nat, ghost moved: seq<seq<Item>>, ghost x: Item) returns (bump: nat)
      requires Counted(bk, moved) && b < |moved| && bk[b].count == |moved[b]|
      modifies this`nonidealItems
      ensures Accounted(bk, b, bump, moved[b := [x] + moved[b]])
    {
      hide Multiplier, Excess;
      MultiplierOfOneMore(bk[b].count, idealChainMaxlen);
      ExcessOfUpdate(moved, idealChainMaxlen, b, [x] + moved[b]);
      bump := 0;
      if bk[b].count + 1 > idealChainMaxlen {
        nonidealItems := nonidealItems + 1;
        if bk[b].count + 1 > bk[b].expandMult * idealChainMaxlen {
          bump := 1;
        }
      }
    }

    /** The counts that the buckets will have once the multiplier of bucket b is bumped. */
    ghost predicate Accounted(bk: array<Bucket>, b: nat, bump: nat, moved: seq<seq<Item>>)
      reads this`idealChainMaxlen, this`nonidealItems, bk
    {
      && bk.Length == |moved| && idealChainMaxlen >= 1
      && nonidealItems == Excess(moved, idealChainMaxlen)
      && (forall d :: 0 <= d < |moved| ==>
            bk[d].expandMult + (if d == b then bump else 0) == Multiplier(|moved[d]|, idealChainMaxlen))
    }

    lemma LinkedCount(bk: array<Bucket>, moved: seq<seq<Item>>, held: set<Item>, b: nat)
      requires Linked(bk, moved, held) && b < bk.Length
      ensures bk.Length == |moved| && bk[b].count == |moved[b]|
    {
    }

    lemma MovedOneMore(moved: seq<seq<Item>>, done: set<Item>, i: nat, j: nat)
      requires Placed(chains, items, hash) && Moved(moved, done, i, j) && i < |chains| && j < |chains[i]|
      ensures var x := chains[i][j];
              var b := Home(x, hash, |moved|);
              x in items && x !in done && |moved| == 2 * numBuckets && Placed(moved, done, hash)
                && Moved(moved[b := [x] + moved[b]], done + {x}, i, j + 1)
    {
      var x := chains[i][j];
      OneMoreIsPlaced(moved, done, hash, x);
      forall b, k | 0 <= b < |chains| && 0 <= k < |chains[b]| && chains[b][k] == x
        ensures b == i && k == j
      {
        assert Home(x, hash, |chains|) == b;
        assert Home(x, hash, |chains|) == i;
      }
    }

    lemma UnmovedApart(i: nat, j: nat)
      requires Placed(chains, items, hash) && Unmoved(i, j) && i < |chains| && j < |chains[i]|
      ensures forall b, k :: 0 <= b < |chains| && 0 <= k < |chains[b]| && (b > i || (b == i && k >= j + 1)) ==>
                chains[b][k] != chains[i][j]
    {
      assert Home(chains[i][j], hash, |chains|) == i;
    }

    lemma MayPush(moved: seq<seq<Item>>, done: set<Item>, x: Item)
      requires Placed(moved, done, hash) && x !in done
      ensures var b := Home(x, hash, |moved|);
              && Distinct(moved[b])
              && (forall d, j :: 0 <= d < |moved| && 0 <= j < |moved[d]| ==> moved[d][j] != x)
              && (forall d, j :: 0 <= d < |moved| && d != b && 0 <= j < |moved[d]| && moved[b] != [] ==>
                    moved[d][j] != moved[b][0])
    {
      var b := Home(x, hash, |moved|);
      if moved[b] != [] { assert Home(moved[b][0], hash, |moved|) == b; }
    }

    /**
     What an expansion leaves in the statistics: the ideal chain length is the number of items per bucket, rounded
     up; the items in excess of it; each bucket's multiplier; how many expansions in a row left more than half of
     the items in excess, and whether two of them ended all expansion.
     */
    ghost predicate Assessed(ineffective: nat, givenUp: bool)
      reads this, buckets
    {
      && 1 <= numBuckets && |chains| == buckets.Length
      && idealChainMaxlen == CeilDiv(numItems, numBuckets) >= 1
      && nonidealItems == Excess(chains, idealChainMaxlen)
      && (forall b :: 0 <= b < |chains| ==> buckets[b].expandMult == Multiplier(|chains[b]|, idealChainMaxlen))
      && ineffExpands == (if nonidealItems > numItems / 2 then ineffective + 1 else 0)
      && noexpand == (givenUp || ineffExpands > 1)
    }

    /** No bucket array, multiplier or statistic has changed. */
    twostate predicate SameStatistics()
      reads this, buckets
    {
      && buckets == old(buckets) && numBuckets == old(numBuckets)
      && idealChainMaxlen == old(idealChainMaxlen) && nonidealItems == old(nonidealItems)
      && ineffExpands == old(ineffExpands) && noexpand == old(noexpand)
      && forall b :: 0 <= b < buckets.Length ==> buckets[b].expandMult == old(buckets[b].expandMult)
    }

    /**
     Doubles the number of buckets. The items and their placement by hash value stay; an item of
     bucket i goes to bucket i or i plus the old number; the ideal chain length is the number of
     items per new bucket, rounded up, and the excess over it and the multipliers are what the
     fields say.
     */
    method ExpandBuckets()
      requires TableOk() && items != {}
      modifies this`buckets, this`numBuckets, this`log2NumBuckets, this`chains
      modifies this`idealChainMaxlen, this`nonidealItems, this`ineffExpands, this`noexpand
      modifies items`hhPrev, items`hhNext
      ensures TableOk() && fresh(buckets)
      ensures numBuckets == 2 * old(numBuckets)
      ensures forall b, k :: 0 <= b < |chains| && 0 <= k < |chains[b]| ==>
                b == Home(chains[b][k], hash, old(numBuckets))
                  || b == Home(chains[b][k], hash, old(numBuckets)) + old(numBuckets)
      ensures Assessed(old(ineffExpands), old(noexpand))
    {
      hide CeilDiv, Excess, Multiplier, Placed, Linked, Home;
      var newBuckets := new Bucket[2 * numBuckets](_ => Bucket(null, 0, 0));
      idealChainMaxlen := IdealLength();
      nonidealItems := 0;
      ghost var moved := Rehash(newBuckets);
      Install(newBuckets, moved);
    }

    /** The items per new bucket, rounded up, by a shift and a mask. */
    method IdealLength() returns (r: nat)
      requires numBuckets == Pow2(log2NumBuckets)
      ensures r == CeilDiv(numItems, 2 * numBuckets)
    {
      ShiftAndMaskIsCeil(numItems, log2NumBuckets + 1);
      r := Shr(numItems, log2NumBuckets + 1) + if And(numItems, numBuckets * 2 - 1) != 0 then 1 else 0;
    }

    /**
     The new buckets replace the old ones; two expansions in a row that leave most items badly placed are the
     last.
     */
    method Install(newBuckets: array<Bucket>, ghost moved: seq<seq<Item>>)
      requires numBuckets == Pow2(log2NumBuckets) && |moved| == 2 * numBuckets
      requires Linked(newBuckets, moved, items) && Placed(moved, items, hash)
      requires numItems == |items| && forall x :: x in items ==> x.hashv == hash(x.key)
      modifies this`buckets, this`numBuckets, this`log2NumBuckets, this`chains, this`ineffExpands, this`noexpand
      ensures TableOk() && buckets == newBuckets && chains == moved && numBuckets == 2 * old(numBuckets)
      ensures ineffExpands == (if nonidealItems > numItems / 2 then old(ineffExpands) + 1 else 0)
      ensures noexpand == (old(noexpand) || ineffExpands > 1)
    {
      hide Placed;
      ShrIsDiv(numItems, 1);
      numBuckets := numBuckets * 2;
      log2NumBuckets := log2NumBuckets + 1;
      buckets := newBuckets;
      chains := moved;
      ineffExpands := if nonidealItems > Shr(numItems, 1) then ineffExpands + 1 else 0;
      if ineffExpands > 1 {
        noexpand := true;
      }
    }

    /** What the loops of the expansion read of the old table and do not change. */
    ghost predicate OldTable()
      reads this`buckets, this`numBuckets, this`log2NumBuckets, this`items, this`chains, buckets, items`hashv
    {
      && buckets.Length == numBuckets == |chains| == Pow2(log2NumBuckets)
      && Placed(chains, items, hash)
      && (forall x :: x in items ==> x.hashv == hash(x.key))
      && (forall b :: 0 <= b < |chains| ==> buckets[b].head == At(chains[b], 0))
    }

    /** The two nested loops of the expansion. */
    method Rehash(newBuckets: array<Bucket>) returns (ghost moved: seq<seq<Item>>)
      requires TableOk() && items != {} && newBuckets.Length == 2 * numBuckets && newBuckets != buckets
      requires forall b :: 0 <= b < newBuckets.Length ==> newBuckets[b] == Bucket(null, 0, 0)
      requires nonidealItems == 0 && idealChainMaxlen == CeilDiv(numItems, 2 * numBuckets)
      modifies this`nonidealItems, newBuckets, items`hhPrev, items`hhNext
      ensures Linked(newBuckets, moved, items) && Placed(moved, items, hash) && Counted(newBuckets, moved)
      ensures |moved| == 2 * numBuckets
      ensures forall b, k :: 0 <= b < |moved| && 0 <= k < |moved[b]| ==>
                b == Home(moved[b][k], hash, numBuckets) || b == Home(moved[b][k], hash, numBuckets) + numBuckets
    {
      hide Placed, Rehashed, OldTable, TableOk, CeilDiv;
      moved := seq(2 * numBuckets, _ => []);
      ghost var done: set<Item> := {};
      RehashBegins(newBuckets, moved);
      var i := 0;
      while i < numBuckets
        invariant 0 <= i <= numBuckets == |chains|
        invariant OldTable() && Rehashed(newBuckets, moved, done, i, 0)
        modifies this`nonidealItems, newBuckets, items`hhPrev, items`hhNext
      {
        HeadOfChain(i);
        var thh := buckets[i].head;
        ghost var j := 0;
        while thh != null
          invariant 0 <= j <= |chains[i]| && thh == At(chains[i], j)
          invariant OldTable() && Rehashed(newBuckets, moved, done, i, j)
          decreases |chains[i]| - j
          modifies this`nonidealItems, newBuckets, items`hhPrev, items`hhNext
        {
          NextOfUnmoved(newBuckets, moved, done, i, j);
          var nxt := thh.hhNext;
          moved := MoveItem(newBuckets, thh, moved, done, i, j);
          done := done + {thh};
          thh := nxt;
          j := j + 1;
        }
        ChainIsMoved(newBuckets, moved, done, i);
        i := i + 1;
      }
      AllRehashed(newBuckets, moved, done);
    }

    lemma NextOfUnmoved(bk: array<Bucket>, moved: seq<seq<Item>>, done: set<Item>, i: nat, j: nat)
      requires OldTable() && Rehashed(bk, moved, done, i, j) && i < |chains| && j < |chains[i]|
      ensures chains[i][j].hhNext == At(chains[i], j + 1)
      ensures chains[i][j] in items && chains[i][j].hashv == hash(chains[i][j].key)
      ensures Placed(chains, items, hash) && numBuckets == |chains| == Pow2(log2NumBuckets)
    {
      assert NextLinked(chains[i], j, items);
    }

    lemma HeadOfChain(i: nat)
      requires OldTable() && i < |chains|
      ensures i < buckets.Length == numBuckets && buckets[i].head == At(chains[i], 0)
    {
    }

    lemma ChainIsMoved(bk: array<Bucket>, moved: seq<seq<Item>>, done: set<Item>, i: nat)
      requires i < |chains| && Rehashed(bk, moved, done, i, |chains[i]|)
      ensures Rehashed(bk, moved, done, i + 1, 0)
    {
    }

    lemma RehashBegins(bk: array<Bucket>, moved: seq<seq<Item>>)
      requires TableOk() && items != {} && bk.Length == |moved| == 2 * numBuckets
      requires forall b :: 0 <= b < |moved| ==> moved[b] == [] && bk[b] == Bucket(null, 0, 0)
      requires nonidealItems == 0 && idealChainMaxlen == CeilDiv(numItems, 2 * numBuckets)
      ensures Rehashed(bk, moved, {}, 0, 0)
      ensures OldTable() && |chains| == numBuckets
    {
      NoneIsPlaced(moved, hash);
      NoExcess(moved, idealChainMaxlen);
      assert numItems >= 1;
      CeilIs(numItems, 2 * numBuckets, 1);
      hide Placed, Excess, CeilDiv;
      forall b, k | 0 <= b < |chains| && 0 <= k < |chains[b]| ensures NextLinked(chains[b], k, items) {
        assert InChain(chains[b], k, items);
      }
    }

    /** When all chains have been moved, so has every item, each to one of two buckets. */
    lemma AllRehashed(bk: array<Bucket>, moved: seq<seq<Item>>, done: set<Item>)
      requires OldTable() && Rehashed(bk, moved, done, numBuckets, 0)
      ensures done == items && |moved| == 2 * numBuckets
      ensures Linked(bk, moved, items) && Placed(moved, items, hash) && Counted(bk, moved)
      ensures forall b, k :: 0 <= b < |moved| && 0 <= k < |moved[b]| ==>
                b == Home(moved[b][k], hash, numBuckets) || b == Home(moved[b][k], hash, numBuckets) + numBuckets
    {
      forall x | x in items ensures x in done {
        var b := Home(x, hash, numBuckets);
        var k :| 0 <= k < |chains[b]| && chains[b][k] == x;
      }
      forall b, k | 0 <= b < |moved| && 0 <= k < |moved[b]|
        ensures b == Home(moved[b][k], hash, numBuckets) || b == Home(moved[b][k], hash, numBuckets) + numBuckets
      {
        ModSplits(hash(moved[b][k].key), numBuckets);
      }
    }

    // ---------- adding ----------

    /** 32 empty buckets, and nothing in the statistics. */
    ghost predicate NewTable()
      reads this, buckets
    {
      && numBuckets == 32 == buckets.Length && numItems == 0
      && (forall b :: 0 <= b < 32 ==> buckets[b] == Bucket(null, 0, 0))
      && idealChainMaxlen == nonidealItems == ineffExpands == 0 && !noexpand
    }

    /** A new table for its first item. */
    method MakeTable(x: Item)
      modifies this`tail, this`buckets, this`numBuckets, this`log2NumBuckets, this`numItems, this`chains
      modifies this`idealChainMaxlen, this`nonidealItems, this`ineffExpands, this`noexpand
      ensures fresh(buckets) && tail == x && TableOf({})
      ensures NewTable()
    {
      hide Placed, Pow2;
      tail := x;
      numBuckets, log2NumBuckets := INITIAL_NUM_BUCKETS, INITIAL_NUM_BUCKETS_LOG2;
      buckets := new Bucket[INITIAL_NUM_BUCKETS](_ => Bucket(null, 0, 0));
      numItems, idealChainMaxlen, nonidealItems, ineffExpands, noexpand := 0, 0, 0, 0, false;
      chains := seq(INITIAL_NUM_BUCKETS, _ => []);
      NoneIsPlaced(chains, hash);
      FiveBits();
    }

    lemma FiveBits()
      ensures Pow2(5) == 32
    {
      assert Pow2(3) == 8;
    }

    /** The item becomes the last one in application order. */
    method AppendList(x: Item)
      requires ListOk() && order != [] && x !in items
      modifies this`tail, this`order, this`items, x`prev, x`next, tail`next
      ensures ListOk() && order == old(order) + [x] && items == old(items) + {x}
    {
      OneMoreInOrder(order, x);
      hide SetOf, Distinct;
      x.next := null;
      x.prev := tail;
      tail.next := x;
      tail := x;
      ghost var was := order;
      order := order + [x];
      items := items + {x};
      forall i | 0 <= i < |order| ensures InOrder(order, i, items) {
        assert i < |was| ==> order[i] == was[i] && old(InOrder(order, i, items));
      }
    }

    lemma OneMoreInOrder(s: seq<Item>, x: Item)
      requires Distinct(s) && x !in SetOf(s)
      ensures Distinct(s + [x]) && SetOf(s + [x]) == SetOf(s) + {x}
      ensures forall i :: 0 <= i < |s| ==> s[i] in SetOf(s) && (i < |s| - 1 ==> s[i] != s[|s| - 1])
    {
    }

    /** One more item in the bucket of this hash value makes its chain too long, unless expansion was given up. */
    predicate Grows(hashv: nat)
      requires numBuckets >= 1 && buckets.Length == numBuckets
      reads this`buckets, this`numBuckets, this`noexpand, buckets
    {
      var b := buckets[hashv % numBuckets];
      b.count + 1 >= (b.expandMult + 1) * 10 && !noexpand
    }

    /** The item is counted and pushed on its bucket's chain, which may make the buckets expand. */
    method AddToTable(x: Item)
      requires x in items && TableOf(items - {x}) && x.hashv == hash(x.key)
      modifies this`buckets, this`numBuckets, this`log2NumBuckets, this`numItems, this`chains
      modifies this`idealChainMaxlen, this`nonidealItems, this`ineffExpands, this`noexpand
      modifies buckets, items`hhPrev, items`hhNext
      ensures TableOk() && (buckets == old(buckets) || fresh(buckets))
      ensures numItems == old(numItems) + 1
      ensures if old(Grows(x.hashv)) then
                numBuckets == 2 * old(numBuckets) && Assessed(old(ineffExpands), old(noexpand))
              else
                var b := x.hashv % numBuckets;
                SameStatistics() && b < |old(chains)| && chains == old(chains)[b := [x] + old(chains)[b]]
    {
      hide TableOf, CeilDiv, Excess, Multiplier;
      var b := PutInBucket(x);
      if buckets[b].count >= (buckets[b].expandMult + 1) * BKT_CAPACITY_THRESH && !noexpand {
        ExpandBuckets();
      }
    }

    /** The item is counted and becomes the head of its bucket's chain. */
    method PutInBucket(x: Item) returns (b: nat)
      requires x in items && TableOf(items - {x}) && x.hashv == hash(x.key)
      modifies this`numItems, this`chains, buckets, items`hhPrev, items`hhNext
      ensures TableOk() && b < buckets.Length == |old(chains)| && b == x.hashv % numBuckets
      ensures numItems == old(numItems) + 1 && chains == old(chains)[b := [x] + old(chains)[b]]
      ensures buckets[b].count == old(buckets[x.hashv % numBuckets].count) + 1
      ensures forall d :: 0 <= d < buckets.Length ==> buckets[d].expandMult == old(buckets[d].expandMult)
    {
      hide Placed, Linked, Distinct, Pow2;
      b := ToBucket(x.hashv, numBuckets, log2NumBuckets);
      LinkedCount(buckets, chains, items - {x}, b);
      MayPush(chains, items - {x}, x);
      OneMoreIsPlaced(chains, items - {x}, hash, x);
      Sizes(items, x);
      numItems := numItems + 1;
      LinkedInMore(buckets, chains, items - {x}, items);
      PushFront(buckets, b, x, 0, chains, items);
      chains := chains[b := [x] + chains[b]];
      assert items - {x} + {x} == items;
    }

    lemma Sizes(s: set<Item>, x: Item)
      requires x in s
      ensures |s - {x}| + 1 == |s|
    {
      assert s == (s - {x}) + {x};
    }

    lemma LinkedInMore(bk: array<Bucket>, chains: seq<seq<Item>>, s: set<Item>, t: set<Item>)
      requires Linked(bk, chains, s) && s <= t
      ensures Linked(bk, chains, t)
    {
      forall b, j | 0 <= b < |chains| && 0 <= j < |chains[b]| ensures InChain(chains[b], j, t) {
        assert InChain(chains[b], j, s);
      }
    }

    /** The item is the last in application order, and the table has one item more. */
    method Add(x: Item)
      requires Valid() && x !in items
      modifies this, buckets, items, x
      ensures Valid() && order == old(order) + [x]
      ensures buckets == old(buckets) || fresh(buckets)
      ensures if old(order) == [] then
                numBuckets == 32 && idealChainMaxlen == nonidealItems == ineffExpands == 0 && !noexpand &&
                forall b :: 0 <= b < buckets.Length ==> buckets[b].expandMult == 0
              else if old(Grows(hash(x.key))) then
                numBuckets == 2 * old(numBuckets) && Assessed(old(ineffExpands), old(noexpand))
              else SameStatistics()
    {
      hide ListOk, TableOf;
      x.hashv := hash(x.key);
      Enlist(x);
      assert items - {x} == old(items);
      AddToTable(x);
    }

    /** The application order gains its last item; the table does not know of it yet. */
    method Enlist(x: Item)
      requires Valid() && x !in items
      modifies this, items`next, x`prev, x`next
      ensures ListOk() && order == old(order) + [x] && items == old(items) + {x}
      ensures TableOf(old(items)) && (buckets == old(buckets) || fresh(buckets))
      ensures if old(order) == [] then NewTable() else SameStatistics() && unchanged(buckets)
    {
      hide TableOf, NewTable, ListOk;
      EmptyIffNull();
      if head == null {
        MakeList(x);
      } else {
        AppendList(x);
      }
    }

    lemma EmptyIffNull()
      requires ListOk()
      ensures order == [] <==> head == null
      ensures order == [] ==> items == {}
      ensures order != [] ==> tail in items
    {
      if order != [] { assert order[|order| - 1] in order; }
    }

    /** The item is alone in the list of a new table. */
    method MakeList(x: Item)
      requires order == [] && items == {}
      modifies this, x`prev, x`next
      ensures ListOk() && order == [x] && items == {x} && TableOf({}) && fresh(buckets)
      ensures NewTable()
    {
      x.next := null;
      x.prev := null;
      MakeTable(x);
      head := x;
      order, items := [x], {x};
    }

    // ---------- finding and deleting ----------

    /** A lookup walks the chain of the key's bucket. With unique keys it is the lookup in the finite map. */
    method Find(key: string) returns (out: Item?)
      requires Valid()
      ensures if out == null then forall y :: y in items ==> y.key != key else out in items && out.key == key
      ensures UniqueKeys(order) ==> out == Lookup(MapOf(order), key)
    {
      out := null;
      EmptyIffNull();
      if head != null {
        var hashv := hash(key);
        var b := ToBucket(hashv, numBuckets, log2NumBuckets);
        ghost var c := chains[b];
        ChainHasKey(b, key);
        out := FindInBucket(buckets[b].head, hashv, key, c, items, hash);
        FirstWithIsThere(c, key);
      }
      hide Valid;
      if UniqueKeys(order) {
        InMapOf(order, key);
      }
    }

    lemma ChainHasKey(b: nat, key: string)
      requires Valid() && order != [] && b == hash(key) % numBuckets
      ensures forall y :: y in order && y.key == key ==> y in chains[b]
      ensures forall y :: y in chains[b] ==> y in order
      ensures ChainLinked(chains[b], items) && buckets[b].head == At(chains[b], 0)
    {
      forall y | y in order && y.key == key ensures y in chains[b] {
        assert y in items;
        assert Home(y, hash, |chains|) == b;
      }
    }

    /** The list in application order loses its item k. */
    method Unlist(x: Item, ghost k: nat)
      requires ListOk() && |order| >= 2 && k < |order| && order[k] == x
      modifies this`head, this`tail, this`order, this`items, items`prev, items`next
      ensures ListOk() && order == Without(old(order), k) && items == old(items) - {x}
    {
      ghost var was := order;
      OneLessInOrder(was, k);
      WithoutAt(was, k);
      EndsWithout(was, k);
      assert InOrder(was, k, items);
      hide SetOf, Distinct, Without;
      if x == tail {
        tail := x.prev;
      }
      if x.prev == null {
        head := x.next;
      }
      UnlinkItem(x, k, was, items);
      order := Without(was, k);
      items := items - {x};
    }

    lemma OneLessInOrder(s: seq<Item>, k: nat)
      requires Distinct(s) && k < |s|
      ensures Distinct(Without(s, k)) && SetOf(Without(s, k)) == SetOf(s) - {s[k]}
      ensures forall i :: 0 <= i < |s| ==> s[i] in SetOf(s) && (i != k ==> s[i] != s[k])
      ensures k > 0 ==> forall i :: 0 <= i < |s| && i != k - 1 ==> s[i] != s[k - 1]
      ensures k + 1 < |s| ==> forall i :: 0 <= i < |s| && i != k + 1 ==> s[i] != s[k + 1]
    {
      forall y | y in s && y != s[k] ensures y in Without(s, k) { InWithout(s, k, y); }
      forall y | y in Without(s, k) ensures y in s && y != s[k] { }
    }

    /** The bucket of an item loses it, and the table has one item less. */
    method DropFromTable(x: Item)
      requires x !in items && TableOf(items + {x})
      modifies this`numItems, this`chains, buckets, (items + {x})`hhPrev, (items + {x})`hhNext
      ensures TableOf(items) && SameStatistics()
    {
      hide Placed, Linked, Pow2, And;
      assert items + {x} - {x} == items;
      DropFromBuckets(x, items + {x});
      numItems := numItems - 1;
    }

    method DropFromBuckets(x: Item, ghost held: set<Item>)
      requires buckets.Length == numBuckets == Pow2(log2NumBuckets)
      requires Linked(buckets, chains, held) && Placed(chains, held, hash) && x in held && x.hashv == hash(x.key)
      modifies this`chains, buckets, held`hhPrev, held`hhNext
      ensures Linked(buckets, chains, held - {x}) && Placed(chains, held - {x}, hash)
      ensures forall d :: 0 <= d < buckets.Length ==> buckets[d].expandMult == old(buckets[d].expandMult)
    {
      hide Placed, Linked, Distinct, Without, OnlyHere, Pow2, And;
      var b := ToBucket(x.hashv, numBuckets, log2NumBuckets);
      LinkedCount(buckets, chains, held, b);
      ghost var k := ChainIndex(b, held, x);
      OneLessIsPlaced(chains, held, hash, b, k);
      DropFromChain(buckets, b, x, k, chains, held);
      chains := chains[b := Without(chains[b], k)];
    }

    lemma ChainIndex(b: nat, held: set<Item>, x: Item) returns (k: nat)
      requires Placed(chains, held, hash) && x in held && b == Home(x, hash, |chains|)
      ensures k < |chains[b]| && chains[b][k] == x && Distinct(chains[b]) && OnlyHere(chains, b)
    {
      k :| 0 <= k < |chains[b]| && chains[b][k] == x;
      forall d, j, i | 0 <= d < |chains| && d != b && 0 <= j < |chains[d]| && 0 <= i < |chains[b]|
        ensures chains[d][j] != chains[b][i]
      {
        assert Home(chains[d][j], hash, |chains|) == d && Home(chains[b][i], hash, |chains|) == b;
      }
    }

    lemma IndexOf(x: Item) returns (k: nat)
      requires ListOk() && x in items
      ensures k < |order| && order[k] == x
      ensures x.prev == null && x.next == null <==> |order| == 1
      ensures |order| == 1 ==> Without(order, k) == [] && items - {x} == {}
    {
      k :| 0 <= k < |order| && order[k] == x;
      assert InOrder(order, k, items);
    }

    lemma NothingIsOk()
      requires head == null && order == [] && items == {}
      ensures ListOk()
    {
    }

    /** The item leaves the list and its bucket; with the last item the whole table goes. */
    method Delete(x: Item) returns (ghost k: nat)
      requires Valid() && x in items
      modifies this, buckets, items
      ensures Valid() && k < |old(order)| && old(order)[k] == x
      ensures order == Without(old(order), k) && items == old(items) - {x}
      ensures SameStatistics()
    {
      hide ListOk, TableOf, Without;
      k := IndexOf(x);
      if x.prev == null && x.next == null {
        head := null;
        order, items := [], {};
        NothingIsOk();
      } else {
        Unlist(x, k);
        assert items + {x} == old(items);
        DropFromTable(x);
      }
    }

    /**
     The item takes the place of the one with its key, if there is one, which may be the item
     itself; it becomes the last in application order, and the map has it under its key.
     */
    method Replace(x: Item) returns (replaced: Item?)
      requires Valid() && UniqueKeys(order)
      modifies this, buckets, items, x
      ensures Valid() && UniqueKeys(order)
      ensures replaced == Lookup(old(MapOf(order)), x.key)
      ensures MapOf(order) == old(MapOf(order))[x.key := x]
      ensures order != [] && order[|order| - 1] == x
      ensures buckets == old(buckets) || fresh(buckets)
    {
      hide ListOk, TableOf, UniqueKeys, MapOf;
      replaced := Find(x.key);
      if replaced != null {
        ghost var was := order;
        ghost var k := Delete(replaced);
        MapOfLess(was, k);
      }
      FreshKeyIsAbsent(x);
      MapOfMore(order, x);
      Add(x);
    }

    lemma FreshKeyIsAbsent(x: Item)
      requires ListOk() && UniqueKeys(order) && x.key !in MapOf(order)
      ensures x !in items
    {
      InMapOf(order, x.key);
    }

    // ---------- the integrity check ----------

    /** The forward links lead along the chains and the order; nothing is said of backward links and counters. */
    ghost predicate Walkable()
      reads this, buckets, items
    {
      && head == At(order, 0) && (forall k :: 0 <= k < |order| ==> FollowedBy(order, k))
      && (order != [] ==>
            && buckets.Length == numBuckets == |chains|
            && forall b :: 0 <= b < |chains| ==> ChainWalkable(b))
    }

    ghost predicate FollowedBy(s: seq<Item>, k: nat)
      requires k < |s|
      reads this`items, items`next
    {
      s[k] in items && s[k].next == At(s, k + 1)
    }

    ghost predicate ChainWalkable(b: nat)
      requires b < |chains| && b < buckets.Length
      reads this`items, this`buckets, this`chains, buckets, items`hhNext
    {
      buckets[b].head == At(chains[b], 0) && forall k :: 0 <= k < |chains[b]| ==> NextLinked(chains[b], k, items)
    }

    /** The backward links and the count of a bucket are those of its chain. */
    ghost predicate BucketPasses(b: nat)
      requires b < |chains| && b < buckets.Length
      reads this`buckets, this`chains, this`items, buckets, items`hhPrev
    {
      && buckets[b].count == |chains[b]|
      && forall k :: 0 <= k < |chains[b]| ==> chains[b][k] in items && chains[b][k].hhPrev == At(chains[b], k - 1)
    }

    /** The backward links of the order, and the number of items, are right. */
    ghost predicate OrderPasses()
      reads this`order, this`numItems, order
    {
      numItems == |order| && forall k :: 0 <= k < |order| ==> order[k].prev == At(order, k - 1)
    }

    ghost predicate BucketsPass()
      requires buckets.Length == |chains|
      reads this`buckets, this`chains, this`items, this`numItems, buckets, items`hhPrev
    {
      numItems == Total(chains) && forall b :: 0 <= b < |chains| ==> BucketPasses(b)
    }

    /**
     The integrity check answers yes exactly if all backward links, the counts of all buckets and the number of
     items are right, wherever the forward links lead; so every valid table passes.
     */
    method Fsck() returns (ok: bool)
      requires Walkable()
      ensures ok <==> order == [] || (BucketsPass() && OrderPasses())
      ensures Valid() ==> ok
    {
      if head == null {
        return true;
      }
      ok := FsckBuckets();
      if ok {
        ok := FsckOrder();
      }
      if Valid() { ValidPasses(); }
    }

    lemma ValidPasses()
      requires Valid() && order != []
      ensures Walkable() && BucketsPass() && OrderPasses()
    {
      hide Placed;
      assert ListOk() && TableOk();
      SizeOfSet(order);
      CountOfAll();
      forall k | 0 <= k < |order|
        ensures FollowedBy(order, k) && order[k].prev == At(order, k - 1)
      {
        assert InOrder(order, k, items);
      }
      forall b | 0 <= b < |chains|
        ensures ChainWalkable(b) && BucketPasses(b)
      {
        forall k | 0 <= k < |chains[b]|
          ensures NextLinked(chains[b], k, items) && chains[b][k].hhPrev == At(chains[b], k - 1)
        {
          assert InChain(chains[b], k, items);
        }
      }
    }

    /** The bucket part: the backward links and the number of items of every chain, and the number of all items. */
    method FsckBuckets() returns (ok: bool)
      requires Walkable() && order != []
      ensures ok <==> BucketsPass()
    {
      var count, i := 0, 0;
      while i < numBuckets
        invariant 0 <= i <= numBuckets == |chains| && count == Total(chains[..i])
        invariant forall b :: 0 <= b < i ==> BucketPasses(b)
      {
        ghost var c := chains[i];
        assert ChainWalkable(i);
        TotalOfPrefix(chains, i);
        var n := 0;
        var thh := buckets[i].head;
        var prev: Item? := null;
        while thh != null
          invariant 0 <= n <= |c| && thh == At(c, n) && prev == At(c, n - 1)
          invariant forall k :: 0 <= k < n ==> c[k] in items && c[k].hhPrev == At(c, k - 1)
          decreases |c| - n
        {
          assert NextLinked(c, n, items);
          if prev != thh.hhPrev {
            assert !BucketPasses(i);
            return false;
          }
          n := n + 1;
          prev := thh;
          thh := thh.hhNext;
        }
        count := count + n;
        if buckets[i].count != n {
          assert !BucketPasses(i);
          return false;
        }
        i := i + 1;
      }
      assert chains[..numBuckets] == chains;
      return count == numItems;
    }

    lemma CountOfAll()
      requires TableOk()
      ensures Total(chains) == numItems
    {
    }

    /** The application-order part: the backward links and the number of items. */
    method FsckOrder() returns (ok: bool)
      requires Walkable()
      ensures ok <==> OrderPasses()
    {
      var count := 0;
      var prev: Item? := null;
      var thh := head;
      while thh != null
        invariant 0 <= count <= |order| && thh == At(order, count) && prev == At(order, count - 1)
        invariant forall k :: 0 <= k < count ==> order[k].prev == At(order, k - 1)
        decreases |order| - count
      {
        assert FollowedBy(order, count);
        if prev != thh.prev {
          return false;
        }
        count := count + 1;
        prev := thh;
        thh := thh.next;
      }
      return count == numItems;
    }

    // ---------- sorting ----------

    /**
     Sorts the application order by a comparison. Whatever the comparison, the result is a
     permutation linked both ways, and the buckets are not touched; if it is total and transitive
     the result is stably sorted.
     */
    method Sort(cmp: Cmp<Item>)
      requires Valid()
      modifies this`head, this`tail, this`order, items`next, items`prev
      ensures Valid()
      ensures multiset(order) == multiset(old(order))
      ensures TotalPreorder(items, cmp) ==> StablySorted(order, cmp, x => IndexIn(old(order), x))
    {
      ghost var was := order;
      hide SortFrom, TableOf, TotalPreorder, StablySorted;
      if head != null {
        SortList(cmp);
      } else {
        NothingToSort(cmp);
      }
      SortedOrder(was, cmp);
    }

    lemma NothingToSort(cmp: Cmp<Item>)
      requires ListOk() && head == null
      ensures order == SortFrom(order, 1, cmp)
    {
    }

    lemma SortedOrder(was: seq<Item>, cmp: Cmp<Item>)
      requires Distinct(was) && items == SetOf(was)
      ensures multiset(SortFrom(was, 1, cmp)) == multiset(was)
      ensures TotalPreorder(items, cmp) ==> StablySorted(SortFrom(was, 1, cmp), cmp, x => IndexIn(was, x))
    {
      hide SortFrom, StablySorted, TotalPreorder;
      SortKeepsContents(was, 1, cmp);
      if TotalPreorder(items, cmp) {
        SortIsStable(was, cmp, x => IndexIn(was, x), items);
      }
    }

    /** The passes, with runs of doubled length, until one makes a single merge. */
    method SortList(cmp: Cmp<Item>)
      requires ListOk() && order != []
      modifies this`head, this`tail, this`order, items`next, items`prev
      ensures ListOk() && order == SortFrom(old(order), 1, cmp)
    {
      hide Ahead, AppLinked, Pass, Distinct, SetOf, SortFrom;
      ghost var s, n := order, |order|;
      ListAhead();
      var list: Item := head;
      var insize := 1;
      var looping := true;
      while looping
        invariant 1 <= insize && |s| == n && (looping ==> insize <= n)
        invariant list == s[0] && Distinct(s) && SetOf(s) == items && Ahead(s, 0, n, items)
        invariant looping ==> SortFrom(s, insize, cmp) == SortFrom(old(order), 1, cmp)
        invariant !looping ==>
                    s == SortFrom(old(order), 1, cmp) && head == s[0] && tail == s[n - 1] && AppLinked(s, items)
        decreases looping, n - insize
      {
        var last, nmerges;
        SortUnfolds(s, insize, cmp);
        list, last, nmerges := OnePass(list, insize, cmp, s, items);
        SameItems(s, Pass(s, insize, cmp), insize, cmp);
        s := Pass(s, insize, cmp);
        if nmerges <= 1 {
          looping := false;
          tail := last;
          head := list;
        }
        insize := insize * 2;
      }
      order := s;
    }

    lemma ListAhead()
      requires ListOk() && order != []
      ensures Ahead(order, 0, |order|, items) && head == order[0]
    {
      forall t | 0 <= t < |order| ensures NextIs(order, t, items) {
        assert InOrder(order, t, items);
      }
    }
  }

  /** The number of items in the first b chains. */
  lemma TotalOfPrefix(chains: seq<seq<Item>>, b: nat)
    requires b < |chains|
    ensures Total(chains[..b + 1]) == Total(chains[..b]) + |chains[b]|
  {
    assert chains[..b + 1][..b] == chains[..b];
  }

  lemma SortUnfolds(s: seq<Item>, k: nat, cmp: Cmp<Item>)
    requires k >= 1
    ensures SortFrom(s, k, cmp) == if |s| <= 2 * k then Pass(s, k, cmp) else SortFrom(Pass(s, k, cmp), 2 * k, cmp)
  {
  }

  lemma SameItems(s: seq<Item>, r: seq<Item>, k: nat, cmp: Cmp<Item>)
    requires k >= 1 && r == Pass(s, k, cmp)
    ensures SetOf(r) == SetOf(s)
  {
    PassKeepsContents(s, k, cmp);
    assert forall x :: x in r <==> x in multiset(r);
    assert forall x :: x in s <==> x in multiset(s);
  }

  /** The position of an item in a list. */
  ghost function IndexIn(s: seq<Item>, x: Item): int {
    if exists i :: 0 <= i < |s| && s[i] == x then
      var i :| 0 <= i < |s| && s[i] == x; i
    else -1
  }
}
