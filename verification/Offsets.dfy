/**
 Where each client puts its requests: the client-to-forwarder mapping and the
 offset formulas of the three access patterns.

 Every formula is the source's own, over unbounded integers.
 */
module Offsets {
  import opened Arithmetic

  /** The access patterns the set-up checks leave: a shared file written in one of two ways, or a file per client. */
  datatype Layout = Contiguous | Strided | Individual

  // ---------- clients and forwarders ----------

  /** The set-up checks that every process makes before the run. */
  predicate ValidSetup(worldSize: nat, forwarders: nat) {
    && 1 <= forwarders
    && forwarders * 2 <= worldSize
    && worldSize % forwarders == 0
  }

  /** Every forwarder has this number of clients. */
  predicate EachServes(worldSize: nat, forwarders: nat, clients: nat) {
    worldSize == forwarders + clients * forwarders
  }

  /** The set-ups that pass are those with the same number of clients, at least one, for every forwarder. */
  lemma SetupsAre(worldSize: nat, forwarders: nat)
    ensures ValidSetup(worldSize, forwarders) <==>
            forwarders >= 1 && exists clients: nat :: clients >= 1 && EachServes(worldSize, forwarders, clients)
  {
    if ValidSetup(worldSize, forwarders) {
      var k := worldSize / forwarders;
      assert worldSize == k * forwarders;
      if k < 2 { MulMono(k, 1, forwarders); }
      assert EachServes(worldSize, forwarders, k - 1);
    }
    if clients: nat :| clients >= 1 && EachServes(worldSize, forwarders, clients) && forwarders >= 1 {
      DivModIs(worldSize, forwarders, clients + 1, 0);
      MulMono(1, clients, forwarders);
    }
  }

  /** The number of clients whose sign-off makes a forwarder shut down. */
  function ShutdownThreshold(worldSize: nat, forwarders: nat): nat
    requires ValidSetup(worldSize, forwarders)
  {
    (worldSize - forwarders) / forwarders
  }

  lemma ThresholdIsPositive(worldSize: nat, forwarders: nat)
    requires ValidSetup(worldSize, forwarders)
    ensures worldSize == forwarders * (ShutdownThreshold(worldSize, forwarders) + 1)
    ensures 1 <= ShutdownThreshold(worldSize, forwarders)
  {
    var k := worldSize / forwarders;
    assert worldSize == forwarders * k;
    assert worldSize - forwarders == (k - 1) * forwarders + 0;
    DivModIs(worldSize - forwarders, forwarders, k - 1, 0);
    if k < 2 {
      MulMono(k, 1, forwarders);
    }
  }

  /** The forwarder that the process with this world rank talks to. */
  function ForwarderOf(worldRank: nat, worldSize: nat, forwarders: nat): nat
    requires ValidSetup(worldSize, forwarders)
    requires forwarders <= worldRank < worldSize
  {
    ThresholdIsPositive(worldSize, forwarders);
    (worldRank - forwarders) / ((worldSize - forwarders) / forwarders)
  }

  /** The world ranks of the clients that a forwarder serves. */
  function Clients(f: nat, worldSize: nat, forwarders: nat): set<nat>
    requires ValidSetup(worldSize, forwarders)
  {
    set r: nat | forwarders <= r < worldSize && ForwarderOf(r, worldSize, forwarders) == f
  }

  /** The rank lies in the forwarder's block, if blocks follow each other in the order of the forwarders. */
  predicate InBlock(f: nat, r: nat, worldSize: nat, forwarders: nat)
    requires 1 <= forwarders <= worldSize
  {
    var m := (worldSize - forwarders) / forwarders;
    forwarders + f * m <= r < forwarders + f * m + m
  }

  /**
   Every client is sent to an existing forwarder, and every forwarder serves a
   block of consecutive ranks of exactly the size its shutdown counter waits for.
   */
  lemma ClientsAreBalanced(f: nat, worldSize: nat, forwarders: nat)
    requires ValidSetup(worldSize, forwarders)
    requires f < forwarders
    ensures |Clients(f, worldSize, forwarders)| == ShutdownThreshold(worldSize, forwarders)
    ensures forall r: nat | forwarders <= r < worldSize ::
              && ForwarderOf(r, worldSize, forwarders) < forwarders
              && (ForwarderOf(r, worldSize, forwarders) == f <==> InBlock(f, r, worldSize, forwarders))
  {
    hide ShutdownThreshold, ForwarderOf, Interval, InBlock;
    var m := ShutdownThreshold(worldSize, forwarders);
    forall r: nat | forwarders <= r < worldSize
      ensures ForwarderOf(r, worldSize, forwarders) < forwarders
      ensures ForwarderOf(r, worldSize, forwarders) == f <==> InBlock(f, r, worldSize, forwarders)
      ensures ForwarderOf(r, worldSize, forwarders) == f <==> r in Interval(forwarders + f * m, m)
    {
      ServedIsBlock(f, r, worldSize, forwarders);
    }
    BlockFits(f, worldSize, forwarders);
    assert Clients(f, worldSize, forwarders) == Interval(forwarders + f * m, m);
  }

  lemma ServedIsBlock(f: nat, r: nat, worldSize: nat, forwarders: nat)
    requires ValidSetup(worldSize, forwarders)
    requires forwarders <= r < worldSize
    ensures ForwarderOf(r, worldSize, forwarders) < forwarders
    ensures InBlock(f, r, worldSize, forwarders) <==> ForwarderOf(r, worldSize, forwarders) == f
    ensures var m := ShutdownThreshold(worldSize, forwarders);
            ForwarderOf(r, worldSize, forwarders) == f <==> forwarders + f * m <= r < forwarders + f * m + m
  {
    ThresholdIsPositive(worldSize, forwarders);
    var m := ShutdownThreshold(worldSize, forwarders);
    SameBlock(r - forwarders, m, f);
    BelowBlocks(r - forwarders, m, forwarders);
  }

  lemma BlockFits(f: nat, worldSize: nat, forwarders: nat)
    requires ValidSetup(worldSize, forwarders)
    requires f < forwarders
    ensures var m := ShutdownThreshold(worldSize, forwarders); forwarders + f * m + m <= worldSize
  {
    ThresholdIsPositive(worldSize, forwarders);
    MulMono(f + 1, forwarders, ShutdownThreshold(worldSize, forwarders));
  }

  function Interval(lo: nat, m: nat): (s: set<nat>)
    ensures |s| == m
    ensures forall r: nat :: r in s <==> lo <= r < lo + m
  {
    if m == 0 then {} else Interval(lo, m - 1) + {lo + m - 1}
  }

  // ---------- offsets ----------

  /** Iterations per client. The rounding up in the source acts on a quotient already cut to an integer. */
  function Iterations(totalSize: nat, clients: nat, requestSize: nat): nat
    requires 1 <= clients && 1 <= requestSize
  {
    (totalSize / clients) / requestSize
  }

  /** The offset of iteration i of the client with this rank among the clients. */
  function Offset(layout: Layout, clients: nat, n: nat, requestSize: nat, rank: nat, i: nat): int
    requires i < n
  {
    match layout
    case Contiguous => (i / n) * ((requestSize * n) * clients) + (requestSize * n) * rank + i * requestSize
    case Strided => i * (clients * requestSize) + rank * requestSize
    case Individual => i * requestSize
  }

  /** The client and the iteration that own byte x of a shared file. */
  function Owner(layout: Layout, clients: nat, n: nat, requestSize: nat, x: nat): (nat, nat)
    requires 1 <= clients && 1 <= n && 1 <= requestSize
  {
    var slot := x / requestSize;
    if layout == Strided then (slot % clients, slot / clients) else (slot / n, slot % n)
  }

  predicate InTile(layout: Layout, clients: nat, n: nat, requestSize: nat, rank: nat, i: nat, x: nat)
    requires i < n
  {
    var o := Offset(layout, clients, n, requestSize, rank, i);
    o <= x < o + requestSize
  }

  /** The position of a request in a shared file, counted in requests. */
  function Slot(layout: Layout, clients: nat, n: nat, rank: nat, i: nat): int {
    if layout == Strided then i * clients + rank else rank * n + i
  }

  /**
   Both shared-file formulas tile [0, clients * n * requestSize): a byte lies in
   the range of one (rank, iteration) pair and no other, and every range stays inside.
   */
  lemma SharedTiling(layout: Layout, clients: nat, n: nat, requestSize: nat, rank: nat, i: nat, x: nat)
    requires layout != Individual
    requires 1 <= requestSize && rank < clients && i < n
    ensures InTile(layout, clients, n, requestSize, rank, i, x) <==>
            x < clients * n * requestSize && Owner(layout, clients, n, requestSize, x) == (rank, i)
  {
    var slot := x / requestSize;
    InTileIsSlot(layout, clients, n, requestSize, rank, i, x);
    BelowBlocks(x, requestSize, clients * n);
    SlotIsPair(layout, clients, n, rank, i, slot);
  }

  lemma InTileIsSlot(layout: Layout, clients: nat, n: nat, requestSize: nat, rank: nat, i: nat, x: nat)
    requires layout != Individual
    requires 1 <= requestSize && rank < clients && i < n
    ensures InTile(layout, clients, n, requestSize, rank, i, x) <==>
            x / requestSize == Slot(layout, clients, n, rank, i)
  {
    OffsetIsSlot(layout, clients, n, requestSize, rank, i);
    SameBlock(x, requestSize, Slot(layout, clients, n, rank, i));
  }

  lemma SlotIsPair(layout: Layout, clients: nat, n: nat, rank: nat, i: nat, slot: nat)
    requires layout != Individual
    requires rank < clients && i < n
    ensures slot == Slot(layout, clients, n, rank, i) <==>
            slot < clients * n &&
            (if layout == Strided then (slot % clients, slot / clients) else (slot / n, slot % n)) == (rank, i)
  {
    if layout == Strided {
      PairCode(slot, clients, i, rank);
      BelowBlocks(slot, clients, n);
    } else {
      PairCode(slot, n, rank, i);
      BelowBlocks(slot, n, clients);
    }
  }

  lemma OffsetIsSlot(layout: Layout, clients: nat, n: nat, requestSize: nat, rank: nat, i: nat)
    requires layout != Individual && i < n
    ensures Offset(layout, clients, n, requestSize, rank, i) == Slot(layout, clients, n, rank, i) * requestSize
  {
    if layout == Strided {
      StridedIs(clients, requestSize, rank, i);
    } else {
      ContiguousIs(clients, n, requestSize, rank, i);
    }
  }

  lemma StridedIs(clients: nat, requestSize: nat, rank: nat, i: nat)
    ensures i * (clients * requestSize) + rank * requestSize == (i * clients + rank) * requestSize
  {
    assert i * (clients * requestSize) == (i * clients) * requestSize;
  }

  lemma ContiguousIs(clients: nat, n: nat, requestSize: nat, rank: nat, i: nat)
    requires i < n
    ensures (i / n) * ((requestSize * n) * clients) + (requestSize * n) * rank + i * requestSize ==
            (rank * n + i) * requestSize
  {
    DivModIs(i, n, 0, i);
    assert (requestSize * n) * rank == (rank * n) * requestSize;
  }

  /**
   Offsets in a shared file are whole requests: with strided access, round by round with the clients in order of
   rank; with contiguous access, client by client with the rounds in order.
   */
  lemma OffsetsAre(layout: Layout, clients: nat, n: nat, requestSize: nat, rank: nat, i: nat)
    requires layout != Individual && i < n
    ensures Offset(layout, clients, n, requestSize, rank, i) ==
            (if layout == Strided then i * clients + rank else rank * n + i) * requestSize
  {
    OffsetIsSlot(layout, clients, n, requestSize, rank, i);
  }

  /** Every byte of the tiled part is owned by a real client in a real iteration, so nothing there is left out. */
  lemma EveryByteHasAnOwner(layout: Layout, clients: nat, n: nat, requestSize: nat, x: nat)
    requires layout != Individual
    requires 1 <= clients && 1 <= n && 1 <= requestSize
    requires x < clients * n * requestSize
    ensures var (rank, i) := Owner(layout, clients, n, requestSize, x);
            rank < clients && i < n && InTile(layout, clients, n, requestSize, rank, i, x)
  {
    BelowBlocks(x, requestSize, clients * n);
    BelowBlocks(x / requestSize, clients, n);
    BelowBlocks(x / requestSize, n, clients);
    var (rank, i) := Owner(layout, clients, n, requestSize, x);
    SharedTiling(layout, clients, n, requestSize, rank, i, x);
  }

  /** The owner's rank, by the request that the byte lies in, or by the block. */
  lemma OwnerIs(layout: Layout, clients: nat, n: nat, requestSize: nat, x: nat)
    requires layout != Individual && 1 <= clients && 1 <= n && 1 <= requestSize
    ensures 1 <= n * requestSize
    ensures Owner(layout, clients, n, requestSize, x).0 ==
            if layout == Strided then (x / requestSize) % clients else x / (n * requestSize)
  {
    MulMono(1, n, requestSize);
    var slot := x / requestSize;
    var r, j := x % requestSize, slot % n;
    assert x == slot * requestSize + r && slot == (slot / n) * n + j;
    assert x == (slot / n) * (n * requestSize) + (j * requestSize + r);
    MulMono(j + 1, n, requestSize);
    DivModIs(x, n * requestSize, slot / n, j * requestSize + r);
  }

  /**
   Two different requests never overlap: those on a shared file by the tiling, those of one client on its own
   file by their iterations.
   */
  lemma TilesAreDisjoint(layout: Layout, clients: nat, n: nat, requestSize: nat,
                         rank: nat, i: nat, rank': nat, i': nat, x: nat)
    requires rank < clients && rank' < clients && i < n && i' < n
    requires (rank, i) != (rank', i')
    requires layout == Individual ==> rank == rank'
    requires InTile(layout, clients, n, requestSize, rank, i, x)
    ensures !InTile(layout, clients, n, requestSize, rank', i', x)
  {
    if layout == Individual {
      if i < i' { MulMono(i + 1, i', requestSize); } else { MulMono(i' + 1, i, requestSize); }
    } else {
      SharedTiling(layout, clients, n, requestSize, rank, i, x);
      SharedTiling(layout, clients, n, requestSize, rank', i', x);
    }
  }

  /** What no client covers is less than one request per client. */
  lemma Remainder(totalSize: nat, clients: nat, requestSize: nat)
    requires 1 <= clients && 1 <= requestSize
    ensures var n := Iterations(totalSize, clients, requestSize);
            clients * n * requestSize <= totalSize < clients * n * requestSize + clients * requestSize
  {
    var rankSize := totalSize / clients;
    var n := rankSize / requestSize;
    assert totalSize == rankSize * clients + totalSize % clients;
    assert rankSize == n * requestSize + rankSize % requestSize;
    MulMono(n * requestSize, rankSize, clients);
    MulMono(rankSize + 1, (n + 1) * requestSize, clients);
    assert clients * n * requestSize == (n * requestSize) * clients;
    assert ((n + 1) * requestSize) * clients == (n * requestSize) * clients + requestSize * clients;
  }

  lemma OffsetIsNat(layout: Layout, clients: nat, n: nat, requestSize: nat, rank: nat, i: nat)
    requires i < n
    ensures 0 <= Offset(layout, clients, n, requestSize, rank, i)
  {
    if layout == Individual {
      MulMono(0, i, requestSize);
    } else {
      OffsetIsSlot(layout, clients, n, requestSize, rank, i);
      assert 0 <= Slot(layout, clients, n, rank, i) by {
        if layout == Strided { MulMono(0, i, clients); } else { MulMono(0, rank, n); }
      }
      MulMono(0, Slot(layout, clients, n, rank, i), requestSize);
    }
  }
}
