/**
 * Compaction: every adjacency list is rebuilt balanced into a new arena, each range of vertices into
 * a region reserved by exact slot counts. The ranges are built by parallel threads; they touch
 * disjoint slots, so the model builds them one after the other.
 */
module Compaction {
  import opened Options
  import opened Sorted
  import opened Chunks
  import opened Trees
  import opened Balance
  import opened Arenas
  import opened Builds
  import opened CTrees
  import opened Ownership
  import opened RootTables
  import opened Wals
  import opened Graphs

  /** The slots of a reservation. */
  ghost function Tile(c0: nat, c1: nat, i0: nat, i1: nat): (r: set<Slot>)
    ensures forall s: Slot :: s in r <==> if s.ChunkSlot? then c0 <= s.idx < c1 else i0 <= s.idx < i1
  {
    (set i: nat | c0 <= i < c1 :: ChunkSlot(i)) + (set i: nat | i0 <= i < i1 :: InteriorSlot(i))
  }

  lemma TileJoin(c0: nat, c1: nat, c2: nat, i0: nat, i1: nat, i2: nat)
    requires c0 <= c1 <= c2 && i0 <= i1 <= i2
    ensures Tile(c0, c1, i0, i1) !! Tile(c1, c2, i1, i2)
    ensures Tile(c0, c1, i0, i1) + Tile(c1, c2, i1, i2) == Tile(c0, c2, i0, i2)
  {
  }

  /** Memory written at the slots of one tile and nowhere else. */
  ghost predicate WrittenAt(m: Mem, m': Mem, tile: set<Slot>) {
    && m'.Keys == m.Keys + tile
    && forall s :: s in m && s !in tile ==> m'[s] == m[s]
  }

  lemma WrittenTrans(m0: Mem, m1: Mem, m2: Mem, a: set<Slot>, b: set<Slot>)
    requires WrittenAt(m0, m1, a) && WrittenAt(m1, m2, b)
    ensures WrittenAt(m0, m2, a + b)
  {
  }

  lemma WrittenStored(m: Mem, m': Mem, tile: set<Slot>, t: Tree)
    requires WrittenAt(m, m', tile) && Stored(m, t) && Slots(t) !! tile
    ensures Stored(m', t)
  {
    StoredSlots(m, t);
    StoredFrame(m, m', t);
  }

  class RegionWriter {
    const arena: Arena
    var nextChunk: nat
    const chunkEnd: nat
    var nextInterior: nat
    const interiorEnd: nat

    constructor (arena: Arena, chunkStart: nat, chunkCount: nat, interiorStart: nat, interiorCount: nat)
      ensures this.arena == arena && nextChunk == chunkStart && nextInterior == interiorStart
      ensures chunkEnd == chunkStart + chunkCount && interiorEnd == interiorStart + interiorCount
    {
      this.arena := arena;
      nextChunk, chunkEnd := chunkStart, chunkStart + chunkCount;
      nextInterior, interiorEnd := interiorStart, interiorStart + interiorCount;
    }

    method WriteChunk(c: Chunk) returns (idx: nat)
      requires nextChunk < chunkEnd
      modifies this`nextChunk, arena`mem
      ensures idx == old(nextChunk) && nextChunk == idx + 1
      ensures arena.mem == old(arena.mem)[ChunkSlot(idx) := ChunkNode(c)]
    {
      idx := nextChunk;
      nextChunk := nextChunk + 1;
      arena.mem := arena.mem[ChunkSlot(idx) := ChunkNode(c)];
    }

    method WriteInterior(left: Slot, right: Slot, count: nat, key: nat) returns (idx: nat)
      requires nextInterior < interiorEnd
      modifies this`nextInterior, arena`mem
      ensures idx == old(nextInterior) && nextInterior == idx + 1
      ensures arena.mem == old(arena.mem)[InteriorSlot(idx) := InteriorNode(left, right, count, key)]
    {
      idx := nextInterior;
      nextInterior := nextInterior + 1;
      arena.mem := arena.mem[InteriorSlot(idx) := InteriorNode(left, right, count, key)];
    }

    /** A balanced build takes exactly the slots its cost says, the next ones of the region. */
    method BuildBalancedRegion(vals: seq<nat>) returns (root: Slot, ghost t: Tree)
      requires vals != [] && Ascending(vals)
      requires nextChunk + CompactSlotCost(|vals|).0 <= chunkEnd && nextInterior + CompactSlotCost(|vals|).1 <= interiorEnd
      modifies this`nextChunk, this`nextInterior, arena`mem
      ensures nextChunk == old(nextChunk) + CompactSlotCost(|vals|).0
      ensures nextInterior == old(nextInterior) + CompactSlotCost(|vals|).1
      ensures t.slot == root && Built(arena.mem, t, vals)
      ensures Slots(t) == Tile(old(nextChunk), nextChunk, old(nextInterior), nextInterior)
      ensures WrittenAt(old(arena.mem), arena.mem, Slots(t))
      decreases |vals|
    {
      hide Built, Stored, Slots, Elems, Ascending, WrittenAt, Tile;
      ghost var m0, c0, i0 := arena.mem, nextChunk, nextInterior;
      CostPositive(|vals|);
      if |vals| <= CHUNK_CAP {
        var c := FromSorted(vals);
        var idx := WriteChunk(c);
        LeafBuilt(arena.mem, ChunkSlot(idx), c, vals);
        TileChunk(m0, c0, i0, ChunkNode(c));
        return ChunkSlot(idx), Leaf(ChunkSlot(idx), c);
      }
      var mid := BuildSplit(|vals|);
      SplitLeaves(|vals|);
      SliceAscending(vals, 0, mid);
      SliceAscending(vals, mid, |vals|);
      assert vals[mid..|vals|] == vals[mid..];
      var left, l := BuildBalancedRegion(vals[..mid]);
      ghost var m1, c1, i1 := arena.mem, nextChunk, nextInterior;
      var right, r := BuildBalancedRegion(vals[mid..]);
      ghost var m2, c2, i2 := arena.mem, nextChunk, nextInterior;
      var idx := WriteInterior(left, right, |vals|, vals[mid]);
      JoinTiles(m0, m1, m2, c0, c1, c2, i0, i1, i2, l, r, vals, mid);
      return InteriorSlot(idx), Branch(InteriorSlot(idx), l, r, |vals|, vals[mid]);
    }
  }

  lemma CostPositive(n: nat)
    requires n > 0
    ensures CompactSlotCost(n).0 >= 1 && CompactSlotCost(n).1 + 1 == CompactSlotCost(n).0 == Leaves(n)
    ensures n <= CHUNK_CAP ==> CompactSlotCost(n).0 == 1
  {
  }

  lemma TileChunk(m: Mem, c: nat, i: nat, node: Node)
    ensures Tile(c, c + 1, i, i) == {ChunkSlot(c)} && WrittenAt(m, m[ChunkSlot(c) := node], {ChunkSlot(c)})
  {
  }

  /** Two neighbouring tiles and one interior slot are the tile of the joined tree. */
  lemma JoinTiles(m0: Mem, m1: Mem, m2: Mem, c0: nat, c1: nat, c2: nat, i0: nat, i1: nat, i2: nat,
                  l: Tree, r: Tree, vals: seq<nat>, mid: nat)
    requires |vals| > CHUNK_CAP && Ascending(vals) && mid == BuildSplit(|vals|) && mid < |vals|
    requires c0 <= c1 <= c2 && i0 <= i1 <= i2
    requires Built(m1, l, vals[..mid]) && Slots(l) == Tile(c0, c1, i0, i1) && WrittenAt(m0, m1, Slots(l))
    requires Built(m2, r, vals[mid..]) && Slots(r) == Tile(c1, c2, i1, i2) && WrittenAt(m1, m2, Slots(r))
    ensures var s := InteriorSlot(i2); var t := Branch(s, l, r, |vals|, vals[mid]);
      var m := m2[s := InteriorNode(l.slot, r.slot, |vals|, vals[mid])];
      && Built(m, t, vals) && Slots(t) == Tile(c0, c2, i0, i2 + 1) && WrittenAt(m0, m, Slots(t))
  {
    var s := InteriorSlot(i2);
    var m := m2[s := InteriorNode(l.slot, r.slot, |vals|, vals[mid])];
    TileJoin(c0, c1, c2, i0, i1, i2);
    TileJoin(c0, c2, c2, i0, i2, i2 + 1);
    assert Tile(c2, c2, i2, i2 + 1) == {s};
    assert WrittenAt(m2, m, {s});
    WrittenTrans(m0, m1, m2, Slots(l), Slots(r));
    WrittenTrans(m0, m2, m, Slots(l) + Slots(r), {s});
    hide Tile, WrittenAt, LeafCount, BuiltHeight;
    WrittenStored(m1, m2, Slots(r), l);
    WrittenStored(m2, m, {s}, l);
    WrittenStored(m2, m, {s}, r);
    JoinBuilt(m, vals, mid, l, r, s);
  }

  // -- The adjacency lists, and what they cost ---------------------------------------------

  /** Chunk and interior slots of the first `v` lists. */
  ghost function ChunksBefore(lists: seq<seq<nat>>, v: nat): nat
    requires v <= |lists|
  {
    if v == 0 then 0 else ChunksBefore(lists, v - 1) + CompactSlotCost(|lists[v - 1]|).0
  }

  ghost function InteriorsBefore(lists: seq<seq<nat>>, v: nat): nat
    requires v <= |lists|
  {
    if v == 0 then 0 else InteriorsBefore(lists, v - 1) + CompactSlotCost(|lists[v - 1]|).1
  }

  lemma {:induction false} CostsGrow(lists: seq<seq<nat>>, v: nat, w: nat)
    requires v <= w <= |lists|
    ensures ChunksBefore(lists, v) <= ChunksBefore(lists, w) && InteriorsBefore(lists, v) <= InteriorsBefore(lists, w)
  {
    if v < w {
      CostsGrow(lists, v, w - 1);
    }
  }

  /** The slots of list `v` in the compacted arena. */
  ghost function TileOf(lists: seq<seq<nat>>, v: nat): set<Slot>
    requires v < |lists|
  {
    Tile(ChunksBefore(lists, v), ChunksBefore(lists, v + 1), InteriorsBefore(lists, v), InteriorsBefore(lists, v + 1))
  }

  ghost function TilesBefore(lists: seq<seq<nat>>, v: nat): set<Slot>
    requires v <= |lists|
  {
    Tile(0, ChunksBefore(lists, v), 0, InteriorsBefore(lists, v))
  }

  /** `edges` is the lists one after the other, and `offsets` says where each begins. */
  ghost predicate Csr(offsets: seq<nat>, edges: seq<nat>, lists: seq<seq<nat>>) {
    && |offsets| == |lists| + 1 && offsets[0] == 0 && offsets[|lists|] == |edges|
    && forall v :: 0 <= v < |lists| ==> RowAt(offsets, edges, v, lists[v])
  }

  ghost predicate RowAt(offsets: seq<nat>, edges: seq<nat>, v: nat, row: seq<nat>) {
    v + 1 < |offsets| && offsets[v] <= offsets[v + 1] <= |edges| && edges[offsets[v]..offsets[v + 1]] == row
  }

  /** Vertices `0..v` built: each tree on its own tile, and memory holding those tiles only. */
  ghost predicate Packed(m: Mem, roots: seq<Option<Slot>>, trees: seq<Option<Tree>>, lists: seq<seq<nat>>, v: nat) {
    && |roots| == |trees| == v <= |lists| && m.Keys == TilesBefore(lists, v)
    && forall w :: 0 <= w < v ==> PackedAt(m, roots[w], trees[w], lists, w)
  }

  ghost predicate PackedAt(m: Mem, root: Option<Slot>, t: Option<Tree>, lists: seq<seq<nat>>, w: nat)
    requires w < |lists|
  {
    if lists[w] == [] then root == None && t == None
    else t.Some? && root == Some(t.value.slot) && Built(m, t.value, lists[w]) && Slots(t.value) == TileOf(lists, w)
  }

  lemma TileNext(lists: seq<seq<nat>>, v: nat)
    requires v < |lists|
    ensures TilesBefore(lists, v) !! TileOf(lists, v) && TilesBefore(lists, v) + TileOf(lists, v) == TilesBefore(lists, v + 1)
    ensures lists[v] == [] ==> TileOf(lists, v) == {}
  {
    CostsGrow(lists, 0, v);
    CostsGrow(lists, v, v + 1);
    TileJoin(0, ChunksBefore(lists, v), ChunksBefore(lists, v + 1), 0, InteriorsBefore(lists, v), InteriorsBefore(lists, v + 1));
  }

  lemma TileEarlier(lists: seq<seq<nat>>, w: nat, v: nat)
    requires w < v <= |lists|
    ensures TileOf(lists, w) <= TilesBefore(lists, v)
  {
    CostsGrow(lists, w + 1, v);
    CostsGrow(lists, w, w + 1);
  }

  lemma PackNext(m: Mem, m': Mem, roots: seq<Option<Slot>>, trees: seq<Option<Tree>>, lists: seq<seq<nat>>, v: nat,
                 root: Option<Slot>, t: Option<Tree>)
    requires v < |lists| && Packed(m, roots, trees, lists, v)
    requires WrittenAt(m, m', TileOf(lists, v)) && PackedAt(m', root, t, lists, v)
    ensures Packed(m', roots + [root], trees + [t], lists, v + 1)
  {
    hide Built, TileOf, TilesBefore, WrittenAt, Slots;
    TileNext(lists, v);
    assert m'.Keys == TilesBefore(lists, v + 1) by { WrittenKeys(m, m', TileOf(lists, v)); }
    forall w | 0 <= w < v ensures PackedAt(m', roots[w], trees[w], lists, w) {
      assert PackedAt(m, roots[w], trees[w], lists, w);
      if lists[w] != [] {
        TileEarlier(lists, w, v);
        BuiltAside(m, m', TileOf(lists, v), trees[w].value, lists[w]);
      }
    }
  }

  lemma WrittenKeys(m: Mem, m': Mem, tile: set<Slot>)
    requires WrittenAt(m, m', tile)
    ensures m'.Keys == m.Keys + tile
  {
  }

  lemma BuiltAside(m: Mem, m': Mem, tile: set<Slot>, t: Tree, vals: seq<nat>)
    requires WrittenAt(m, m', tile) && Built(m, t, vals) && Slots(t) !! tile
    ensures Built(m', t, vals)
  {
    WrittenStored(m, m', tile, t);
  }

  // -- The passes ---------------------------------------------------------------------------

  /** The slot counts of one range of vertices. */
  method RangeCost(offsets: seq<nat>, lo: nat, hi: nat, ghost edges: seq<nat>, ghost lists: seq<seq<nat>>)
      returns (chunks: nat, interiors: nat)
    requires Csr(offsets, edges, lists) && lo <= hi <= |lists|
    ensures ChunksBefore(lists, lo) + chunks == ChunksBefore(lists, hi)
    ensures InteriorsBefore(lists, lo) + interiors == InteriorsBefore(lists, hi)
  {
    chunks, interiors := 0, 0;
    for v := lo to hi
      invariant ChunksBefore(lists, lo) + chunks == ChunksBefore(lists, v)
      invariant InteriorsBefore(lists, lo) + interiors == InteriorsBefore(lists, v)
    {
      assert RowAt(offsets, edges, v, lists[v]);
      var cost := CompactSlotCost(offsets[v + 1] - offsets[v]);
      chunks, interiors := chunks + cost.0, interiors + cost.1;
    }
  }

  /** How many leading offsets are below `target`. */
  method CountBelow(offsets: seq<nat>, target: nat) returns (n: nat)
    ensures n <= |offsets| && (forall i :: 0 <= i < n ==> offsets[i] < target) && (n < |offsets| ==> offsets[n] >= target)
  {
    n := 0;
    while n < |offsets| && offsets[n] < target
      invariant n <= |offsets| && forall i :: 0 <= i < n ==> offsets[i] < target
    {
      n := n + 1;
    }
  }

  /** Contiguous vertex ranges, one a thread, that cover all vertices. */
  ghost predicate Ranges(bounds: seq<nat>, threads: nat, nv: nat) {
    && |bounds| == threads + 1 && bounds[0] == 0 && bounds[threads] == nv
    && forall t :: 0 <= t < threads ==> RangeAt(bounds, t, nv)
  }

  predicate RangeAt(bounds: seq<nat>, t: nat, nv: nat) {
    t + 1 < |bounds| && bounds[t] <= bounds[t + 1] <= nv
  }

  method AddBound(bounds: seq<nat>, b: nat, nv: nat) returns (r: seq<nat>)
    requires bounds != [] && bounds[|bounds| - 1] <= b <= nv
    requires forall u :: 0 <= u < |bounds| - 1 ==> RangeAt(bounds, u, nv)
    ensures r == bounds + [b] && forall u :: 0 <= u < |bounds| ==> RangeAt(r, u, nv)
  {
    r := bounds + [b];
    forall u | 0 <= u < |bounds| ensures RangeAt(r, u, nv) {
      assert u < |bounds| - 1 ==> RangeAt(bounds, u, nv);
    }
  }

  /** Split on edge count, so that a stretch of hubs does not fall to one thread. */
  method Partition(offsets: seq<nat>, edges: nat, nv: nat, threads: nat) returns (bounds: seq<nat>)
    requires threads >= 1
    ensures Ranges(bounds, threads, nv)
    ensures forall t :: 1 <= t < threads ==> CutAt(bounds, t, offsets, Share(edges, t, threads), nv)
  {
    hide Share;
    bounds := [0];
    for t := 1 to threads
      invariant |bounds| == t && bounds[0] == 0 && bounds[t - 1] <= nv
      invariant forall u :: 0 <= u < t - 1 ==> RangeAt(bounds, u, nv)
      invariant forall u :: 1 <= u < t ==> CutAt(bounds, u, offsets, Share(edges, u, threads), nv)
    {
      var target := edges * t / threads;
      ShareGrows(edges, t, threads);
      ghost var before := bounds;
      var below := CountBelow(offsets, target);
      bounds := AddBound(bounds, Max(bounds[t - 1], Min(below, nv)), nv);
      forall u | 1 <= u < t ensures CutAt(bounds, u, offsets, Share(edges, u, threads), nv) {
        assert CutAt(before, u, offsets, Share(edges, u, threads), nv);
      }
    }
    ghost var before := bounds;
    bounds := AddBound(bounds, nv, nv);
    forall u | 1 <= u < threads ensures CutAt(bounds, u, offsets, Share(edges, u, threads), nv) {
      assert CutAt(before, u, offsets, Share(edges, u, threads), nv);
    }
  }

  /** A range ends at the first vertex whose edges begin at its thread's share, or past the last vertex. */
  ghost predicate CutAt(bounds: seq<nat>, t: nat, offsets: seq<nat>, share: nat, nv: nat) {
    && t < |bounds| && bounds[t] <= nv && (forall v :: 0 <= v < bounds[t] && v < |offsets| ==> offsets[v] < share)
    && (bounds[t] < nv && bounds[t] < |offsets| ==> offsets[bounds[t]] >= share)
  }

  /** The edges before thread `t`, were they dealt out evenly. */
  ghost function Share(edges: nat, t: nat, threads: nat): nat
    requires threads >= 1
  {
    edges * t / threads
  }

  lemma LessBy(n: nat, a: nat, b: nat)
    requires n * a < n * b
    ensures a < b
  {
  }

  lemma ShareGrows(edges: nat, t: nat, threads: nat)
    requires 1 <= t && threads >= 1
    ensures Share(edges, t - 1, threads) <= Share(edges, t, threads) == edges * t / threads
  {
    var a, b := edges * (t - 1), edges * t;
    assert a <= b < threads * (b / threads + 1) && threads * (a / threads) <= a;
    LessBy(threads, a / threads, b / threads + 1);
  }

  /** Short of its last vertex, no range in the middle has more edges than an even share. */
  lemma FairShare(bounds: seq<nat>, t: nat, offsets: seq<nat>, edges: nat, threads: nat, nv: nat)
    requires 1 <= t && t + 1 < threads && CutAt(bounds, t, offsets, Share(edges, t, threads), nv)
    requires CutAt(bounds, t + 1, offsets, Share(edges, t + 1, threads), nv) && |offsets| == nv + 1
    requires bounds[t] < bounds[t + 1]
    ensures offsets[bounds[t + 1] - 1] - offsets[bounds[t]] <= edges / threads
  {
    assert edges * (t + 1) == edges * t + edges;
    SumShare(edges * t, edges, threads);
  }

  lemma SumShare(a: nat, b: nat, n: nat)
    requires n >= 1
    ensures (a + b) / n <= a / n + b / n + 1
  {
    var q := a / n + b / n + 2;
    assert a < n * (a / n + 1) && b < n * (b / n + 1);
    assert n * (a / n + 1) + n * (b / n + 1) == n * q;
    assert n * ((a + b) / n) <= a + b;
    LessBy(n, (a + b) / n, q);
  }

  /** Build one range of vertices into the region reserved for it. */
  method BuildRange(region: RegionWriter, offsets: seq<nat>, edges: seq<nat>, lo: nat, hi: nat, roots: seq<Option<Slot>>,
                    ghost trees: seq<Option<Tree>>, ghost lists: seq<seq<nat>>)
      returns (roots': seq<Option<Slot>>, ghost trees': seq<Option<Tree>>)
    requires Csr(offsets, edges, lists) && lo <= hi <= |lists| && (forall v :: 0 <= v < |lists| ==> Ascending(lists[v]))
    requires region.nextChunk == ChunksBefore(lists, lo) && region.chunkEnd == ChunksBefore(lists, hi)
    requires region.nextInterior == InteriorsBefore(lists, lo) && region.interiorEnd == InteriorsBefore(lists, hi)
    requires Packed(region.arena.mem, roots, trees, lists, lo)
    modifies region`nextChunk, region`nextInterior, region.arena`mem
    ensures Packed(region.arena.mem, roots', trees', lists, hi)
    ensures region.nextChunk == region.chunkEnd && region.nextInterior == region.interiorEnd
  {
    hide Packed, Built, Ascending, Tile, WrittenAt, CompactSlotCost;
    roots', trees' := roots, trees;
    for v := lo to hi
      invariant Packed(region.arena.mem, roots', trees', lists, v)
      invariant region.nextChunk == ChunksBefore(lists, v) && region.nextInterior == InteriorsBefore(lists, v)
    {
      CostsGrow(lists, v + 1, hi);
      assert RowAt(offsets, edges, v, lists[v]);
      ghost var m := region.arena.mem;
      var vals := edges[offsets[v]..offsets[v + 1]];
      var root: Option<Slot> := None;
      ghost var t: Option<Tree> := None;
      if vals == [] {
        NoCost(lists, v, m);
      } else {
        var r, built := region.BuildBalancedRegion(vals);
        root, t := Some(r), Some(built);
      }
      PackNext(m, region.arena.mem, roots', trees', lists, v, root, t);
      roots', trees' := roots' + [root], trees' + [t];
    }
  }

  lemma NoCost(lists: seq<seq<nat>>, v: nat, m: Mem)
    requires v < |lists| && lists[v] == []
    ensures ChunksBefore(lists, v + 1) == ChunksBefore(lists, v) && InteriorsBefore(lists, v + 1) == InteriorsBefore(lists, v)
    ensures WrittenAt(m, m, TileOf(lists, v))
  {
    TileNext(lists, v);
  }

  // -- The whole graph ------------------------------------------------------------------------

  ghost function Lists(trees: seq<Option<Tree>>): (r: seq<seq<nat>>)
    ensures |r| == |trees| && forall v :: 0 <= v < |trees| ==> r[v] == RElems(trees[v])
  {
    seq(|trees|, v requires 0 <= v < |trees| => RElems(trees[v]))
  }

  /** A traversal can read every list. */
  ghost predicate Readable(trees: seq<Option<Tree>>) {
    forall v :: 0 <= v < |trees| ==> RSteps(trees[v]) <= MAX_DEPTH
  }

  /** The adjacency lists one after the other, read vertex by vertex. */
  method SnapshotCsr(g: Graph) returns (ok: bool, offsets: seq<nat>, edges: seq<nat>)
    requires g.Valid()
    ensures |g.trees| == g.numVertices && (ok <==> Readable(g.trees))
    ensures ok ==> Csr(offsets, edges, Lists(g.trees))
    ensures ok ==> forall v :: 0 <= v < |g.trees| ==> Ascending(RElems(g.trees[v]))
  {
    hide Graph.Valid, RElems, RSteps, Ascending, HasEdge;
    g.Lengths();
    var lists := Lists(g.trees);
    ok, offsets, edges := true, [0], [];
    for v := 0 to g.numVertices
      invariant |offsets| == v + 1 && offsets[0] == 0 && offsets[v] == |edges|
      invariant forall w :: 0 <= w < v ==> RowAt(offsets, edges, w, RElems(g.trees[w]))
      invariant forall w :: 0 <= w < v ==> Ascending(RElems(g.trees[w])) && RSteps(g.trees[w]) <= MAX_DEPTH
    {
      var whole, row := g.NeighborsInto(v);
      if !whole {
        return false, offsets, edges;
      }
      RowsKept(offsets, edges, row, g.trees, v);
      edges := edges + row;
      offsets := offsets + [|edges|];
    }
    forall v | 0 <= v < |lists| ensures RowAt(offsets, edges, v, lists[v]) { }
  }

  lemma RowsKept(offsets: seq<nat>, edges: seq<nat>, row: seq<nat>, trees: seq<Option<Tree>>, v: nat)
    requires |offsets| == v + 1 && offsets[v] == |edges| && v < |trees| && row == RElems(trees[v])
    requires forall w :: 0 <= w < v ==> RowAt(offsets, edges, w, RElems(trees[w]))
    ensures forall w :: 0 <= w <= v ==> RowAt(offsets + [|edges + row|], edges + row, w, RElems(trees[w]))
  {
    hide RElems;
    forall w | 0 <= w <= v ensures RowAt(offsets + [|edges + row|], edges + row, w, RElems(trees[w])) {
      if w < v {
        assert RowAt(offsets, edges, w, RElems(trees[w]));
        assert (edges + row)[offsets[w]..offsets[w + 1]] == edges[offsets[w]..offsets[w + 1]];
      } else {
        assert (edges + row)[|edges|..] == row;
      }
    }
  }

  /** A packed arena is owned by its trees, slot for slot. */
  lemma {:induction false} PackedOwned(m: Mem, roots: seq<Option<Slot>>, trees: seq<Option<Tree>>, lists: seq<seq<nat>>, v: nat)
    requires v <= |lists| && |roots| == |trees| == v
    requires forall w :: 0 <= w < v ==> PackedAt(m, roots[w], trees[w], lists, w)
    ensures LiveBag(trees) == multiset(TilesBefore(lists, v))
  {
    hide PackedAt, TilesBefore, TileOf;
    if v == 0 {
      assert TilesBefore(lists, 0) == {} by { NoTiles(lists); }
    } else {
      var roots', trees' := roots[..v - 1], trees[..v - 1];
      forall w | 0 <= w < v - 1 ensures PackedAt(m, roots'[w], trees'[w], lists, w) {
        assert PackedAt(m, roots[w], trees[w], lists, w);
      }
      PackedOwned(m, roots', trees', lists, v - 1);
      TileNext(lists, v - 1);
      PackedSlots(m, roots[v - 1], trees[v - 1], lists, v - 1);
      BagOfUnion(TilesBefore(lists, v - 1), TileOf(lists, v - 1));
    }
  }

  lemma NoTiles(lists: seq<seq<nat>>)
    ensures TilesBefore(lists, 0) == {}
  {
  }

  lemma PackedSlots(m: Mem, root: Option<Slot>, t: Option<Tree>, lists: seq<seq<nat>>, w: nat)
    requires w < |lists| && PackedAt(m, root, t, lists, w)
    ensures RSlots(t) == TileOf(lists, w) && RootAt(m, root, t) && RElems(t) == lists[w] && VertexBounded(t, false)
  {
    if lists[w] == [] {
      TileNext(lists, w);
    } else {
      BuiltBounded(m, t.value, lists[w]);
    }
  }

  /** Everything a graph needs of its trees holds of the rebuilt trees, and the lists are the same. */
  lemma PackedState(m: Mem, roots: seq<Option<Slot>>, trees: seq<Option<Tree>>, lists: seq<seq<nat>>, old_: seq<Option<Tree>>)
    requires Packed(m, roots, trees, lists, |lists|) && lists == Lists(old_)
    requires InRange(old_)
    ensures |trees| == |old_| && State(m, TilesBefore(lists, |lists|), roots, trees, multiset{}, {})
    ensures forall v :: 0 <= v < |trees| ==> RElems(trees[v]) == RElems(old_[v])
    ensures InRange(trees) && Bounded(trees, {}) && EdgeTotal(trees) == EdgeTotal(old_)
  {
    hide PackedAt, TilesBefore, RootAt, RElems, VertexBounded;
    forall v | 0 <= v < |trees|
      ensures RootAt(m, roots[v], trees[v]) && RElems(trees[v]) == RElems(old_[v]) && VertexBounded(trees[v], false)
    {
      PackedSlots(m, roots[v], trees[v], lists, v);
    }
    PackedOwned(m, roots, trees, lists, |lists|);
    assert multiset(TilesBefore(lists, |lists|)) + multiset{} + multiset({}) == multiset(TilesBefore(lists, |lists|));
    SameTotal(trees, old_);
    hide LiveBag;
  }

  lemma {:induction false} SameTotal(a: seq<Option<Tree>>, b: seq<Option<Tree>>)
    requires |a| == |b| && forall v :: 0 <= v < |a| ==> RElems(a[v]) == RElems(b[v])
    ensures EdgeTotal(a) == EdgeTotal(b)
  {
    hide RElems;
    if a != [] {
      SameTotal(a[..|a| - 1], b[..|b| - 1]);
    }
  }

  /** What a compacted graph occupies, to the byte. */
  ghost function CompactBytes(lists: seq<seq<nat>>): nat {
    ChunksBefore(lists, |lists|) * CHUNK_SLOT + InteriorsBefore(lists, |lists|) * INTERIOR_SLOT
  }

  lemma {:induction false} FewerInteriors(lists: seq<seq<nat>>, v: nat)
    requires v <= |lists|
    ensures InteriorsBefore(lists, v) <= ChunksBefore(lists, v)
  {
    if v > 0 {
      FewerInteriors(lists, v - 1);
    }
  }

  /** A count that fits the requested bytes fits the rounded arena, and never reaches the reserved index. */
  lemma CapacityFits(chunks: nat, interiors: nat, bytes: nat)
    requires interiors <= chunks && chunks * CHUNK_SLOT + interiors * INTERIOR_SLOT <= bytes <= MAX_CAPACITY
    ensures chunks * CHUNK_SLOT + interiors * INTERIOR_SLOT <= bytes - bytes % INTERIOR_SLOT
    ensures interiors <= RESERVED_INTERIOR
  {
    var used := 4 * chunks + interiors;
    assert used * INTERIOR_SLOT <= bytes;
    assert used <= bytes / INTERIOR_SLOT;
  }

  lemma PackedKeys(m: Mem, roots: seq<Option<Slot>>, trees: seq<Option<Tree>>, lists: seq<seq<nat>>)
    requires Packed(m, roots, trees, lists, |lists|)
    ensures m.Keys == TilesBefore(lists, |lists|) && |roots| == |trees| == |lists|
    ensures forall s: Slot :: s in TilesBefore(lists, |lists|) <==>
      Below(s, ChunksBefore(lists, |lists|), InteriorsBefore(lists, |lists|))
  {
    hide ChunksBefore, InteriorsBefore;
  }

  /** Swap the rebuilt arena in and republish. */
  method Adopt(g: Graph, arena: Arena, roots: seq<Option<Slot>>, top: seq<TableUpper>, ghost trees: seq<Option<Tree>>,
               ghost lists: seq<seq<nat>>)
    requires g.Valid() && !g.guarded && !g.poisoned && g.Current() && g.log.chunks == [] && g.log.interiors == []
    requires arena.Valid() && arena.inUse == TilesBefore(lists, |lists|) && arena.lastStamp == 0
    requires Packed(arena.mem, roots, trees, lists, |lists|) && lists == Lists(g.trees)
    requires Shape(top) && SPAN * |top| >= |roots| && forall v: nat :: v < |roots| ==> Get(top, v) == roots[v]
    modifies g`arena, g`roots, g`trees, g`leaked, g`skewed, g`touched, g`latest
    ensures g.Valid() && g.Current() && g.arena == arena && g.wal == old(g.wal) && g.epoch == old(g.epoch)
    ensures Lists(g.trees) == lists && g.leaked == {} && g.skewed == {} && g.trees == trees && g.latest.epoch == g.epoch
  {
    hide Graph.Valid, Graph.Current, Arena.Valid, WalWriter.Valid, State, Packed, Recorded, Meaning, TableMatches, RElems;
    hide Shape, Get, TilesBefore, Lists;
    BeforeAdopt(g);
    PackedMeans(arena.mem, roots, trees, lists, g.trees, g.numVertices, g.skewed, g.numEdges, g.pendingEdges, g.touched, top);
    if g.wal != null {
      SameRecorded(g.wal.records, g.trees, trees);
    }
    g.arena := arena;
    g.roots, g.trees, g.leaked, g.skewed := roots, trees, {}, {};
    g.touched := [];
    g.latest := Snapshot(g.epoch, g.numEdges, top);
    AfterAdopt(g);
  }

  lemma BeforeAdopt(g: Graph)
    requires g.Valid() && g.Current()
    ensures Meaning(g.numVertices, g.trees, g.skewed, g.numEdges, g.pendingEdges, g.numEdges, g.touched)
    ensures g.pendingEdges == 0 && g.numEdges == EdgeTotal(g.trees)
    ensures g.wal != null ==> g.wal.Valid() && Recorded(g.wal.records, g.trees)
  {
    hide Arena.Valid, WalWriter.Valid, State, Recorded, TableMatches, RElems, Shape, Get;
  }

  lemma AfterAdopt(g: Graph)
    requires g.arena.Valid() && !g.guarded && !g.poisoned && g.arena.lastStamp == 0 && g.log.chunks == [] && g.log.interiors == []
    requires State(g.arena.mem, g.arena.inUse, g.roots, g.trees, multiset{}, {}) && g.leaked == {} && |g.roots| == g.numVertices
    requires Meaning(g.numVertices, g.trees, g.skewed, g.numEdges, 0, g.numEdges, []) && g.pendingEdges == 0 && g.touched == []
    requires TableMatches(g.latest.top, g.roots, []) && g.latest.numEdges == g.numEdges == EdgeTotal(g.trees)
    requires g.wal != null ==> g.wal.Valid() && Recorded(g.wal.records, g.trees)
    ensures g.Valid() && g.Current()
  {
    hide Arena.Valid, WalWriter.Valid, State, Recorded, Meaning, RElems, Shape, Get;
    BagEmpty([], []);
  }

  lemma PackedMeans(m: Mem, roots: seq<Option<Slot>>, trees: seq<Option<Tree>>, lists: seq<seq<nat>>, old_: seq<Option<Tree>>,
                    n: nat, skewed: set<nat>, numEdges: nat, pendingEdges: nat, touched: seq<nat>, top: seq<TableUpper>)
    requires Packed(m, roots, trees, lists, |lists|) && lists == Lists(old_)
    requires Meaning(n, old_, skewed, numEdges, pendingEdges, numEdges, touched) && numEdges == EdgeTotal(old_)
    requires Shape(top) && SPAN * |top| >= |roots| && forall v: nat :: v < |roots| ==> Get(top, v) == roots[v]
    ensures |trees| == |roots| == n && State(m, TilesBefore(lists, |lists|), roots, trees, multiset{}, {})
    ensures forall v :: 0 <= v < |trees| ==> RElems(trees[v]) == RElems(old_[v])
    ensures Meaning(n, trees, {}, numEdges, 0, numEdges, []) && TableMatches(top, roots, []) && EdgeTotal(trees) == numEdges
    ensures Lists(trees) == lists
  {
    hide Packed, InRange, Bounded, RElems, Shape, Get, TilesBefore, State;
    MeaningLength(n, old_, skewed, numEdges, pendingEdges, numEdges, touched);
    PackedState(m, roots, trees, lists, old_);
    PackedKeys(m, roots, trees, lists);
  }

  lemma SameRecorded(records: seq<EdgeRecord>, a: seq<Option<Tree>>, b: seq<Option<Tree>>)
    requires Recorded(records, a) && |a| == |b| && forall v :: 0 <= v < |a| ==> RElems(b[v]) == RElems(a[v])
    ensures Recorded(records, b)
  {
    hide RElems;
  }

  datatype CompactError = GraphPoisoned | Pinned | Overrun | CapacityExceeded

  /** The slot counts of every range, by which the regions are reserved. */
  ghost predicate Reserved(ranges: seq<(nat, nat)>, bounds: seq<nat>, lists: seq<seq<nat>>) {
    && Ranges(bounds, |ranges|, |lists|)
    && forall t :: 0 <= t < |ranges| ==> ReservedAt(ranges[t], bounds, t, lists)
  }

  ghost predicate ReservedAt(range: (nat, nat), bounds: seq<nat>, t: nat, lists: seq<seq<nat>>) {
    && t + 1 < |bounds| && bounds[t] <= bounds[t + 1] <= |lists|
    && ChunksBefore(lists, bounds[t]) + range.0 == ChunksBefore(lists, bounds[t + 1])
    && InteriorsBefore(lists, bounds[t]) + range.1 == InteriorsBefore(lists, bounds[t + 1])
  }

  /** Count every range and the whole graph. */
  method Reserve(offsets: seq<nat>, edges: seq<nat>, bounds: seq<nat>, threads: nat, ghost lists: seq<seq<nat>>)
      returns (ranges: seq<(nat, nat)>, chunks: nat, interiors: nat)
    requires Csr(offsets, edges, lists) && Ranges(bounds, threads, |lists|)
    ensures |ranges| == threads && Reserved(ranges, bounds, lists)
    ensures chunks == ChunksBefore(lists, |lists|) && interiors == InteriorsBefore(lists, |lists|)
  {
    hide Csr, ChunksBefore, InteriorsBefore;
    ranges, chunks, interiors := [], 0, 0;
    NoneBefore(lists);
    for t := 0 to threads
      invariant |ranges| == t
      invariant forall u :: 0 <= u < t ==> ReservedAt(ranges[u], bounds, u, lists)
      invariant bounds[t] <= |lists| && chunks == ChunksBefore(lists, bounds[t]) && interiors == InteriorsBefore(lists, bounds[t])
    {
      assert RangeAt(bounds, t, |lists|);
      var c, i := RangeCost(offsets, bounds[t], bounds[t + 1], edges, lists);
      ranges := ranges + [(c, i)];
      chunks, interiors := chunks + c, interiors + i;
    }
  }

  lemma NoneBefore(lists: seq<seq<nat>>)
    ensures ChunksBefore(lists, 0) == 0 && InteriorsBefore(lists, 0) == 0
  {
  }

  /** Build every range into its own region; each reservation is used up exactly and none overlaps another. */
  method BuildAll(arena: Arena, offsets: seq<nat>, edges: seq<nat>, bounds: seq<nat>, ranges: seq<(nat, nat)>, ghost lists: seq<seq<nat>>)
      returns (roots: seq<Option<Slot>>, ghost trees: seq<Option<Tree>>)
    requires Csr(offsets, edges, lists) && Reserved(ranges, bounds, lists)
    requires forall v :: 0 <= v < |lists| ==> Ascending(lists[v])
    requires arena.mem == map[]
    modifies arena`mem
    ensures Packed(arena.mem, roots, trees, lists, |lists|)
  {
    hide Csr, Packed, ChunksBefore, InteriorsBefore, Ascending;
    roots, trees := [], [];
    NoneBefore(lists);
    NonePacked(lists);
    var chunkBase, interiorBase := 0, 0;
    for t := 0 to |ranges|
      invariant bounds[t] <= |lists|
      invariant chunkBase == ChunksBefore(lists, bounds[t]) && interiorBase == InteriorsBefore(lists, bounds[t])
      invariant Packed(arena.mem, roots, trees, lists, bounds[t])
    {
      assert ReservedAt(ranges[t], bounds, t, lists);
      var region := new RegionWriter(arena, chunkBase, ranges[t].0, interiorBase, ranges[t].1);
      chunkBase, interiorBase := chunkBase + ranges[t].0, interiorBase + ranges[t].1;
      roots, trees := BuildRange(region, offsets, edges, bounds[t], bounds[t + 1], roots, trees, lists);
    }
  }

  lemma NonePacked(lists: seq<seq<nat>>)
    ensures Packed(map[], [], [], lists, 0)
  {
  }

  /**
   * Rebuild the graph into an arena of `newCapacity` bytes. `pinCount` is the number of live pins, the
   * graph's own included. Every neighbour list is as it was; a refusal changes nothing, and neither does the
   * panic of a traversal that overruns its stack.
   */
  method CompactWithCapacity(g: Graph, newCapacity: nat, cores: nat, pinCount: nat, readers: nat -> Answer) returns (error: Option<CompactError>)
    requires g.Valid() && !g.guarded && (!g.poisoned ==> g.Current()) && g.log.chunks == [] && g.log.interiors == []
    requires cores >= 1 && INTERIOR_SLOT <= newCapacity <= MAX_CAPACITY
    modifies g
    ensures error.Some? ==> unchanged(g)
    ensures error == Some(GraphPoisoned) <==> old(g.poisoned)
    ensures error == Some(Pinned) <==> !old(g.poisoned) && pinCount > 1
    ensures error == Some(CapacityExceeded) <==>
      !old(g.poisoned) && pinCount <= 1 && Readable(old(g.trees)) && newCapacity < CompactBytes(Lists(old(g.trees)))
    ensures error == Some(Overrun) <==> !old(g.poisoned) && pinCount <= 1 && !Readable(old(g.trees))
    ensures error == None ==>
      && g.Valid() && g.Current() && fresh(g.arena) && g.wal == old(g.wal) && g.latest.epoch == g.epoch == old(g.epoch)
      && Lists(g.trees) == Lists(old(g.trees)) && g.leaked == {} && g.skewed == {}
      && g.arena.inUse == TilesBefore(Lists(g.trees), |g.trees|)
  {
    hide Graph.Valid, Graph.Current, Csr, Ranges, Reserved, Packed, ChunksBefore, InteriorsBefore, Ascending, RElems, Readable;
    hide Arena.Valid, TilesBefore, Shape, Get, Lists;
    if g.poisoned {
      return Some(GraphPoisoned);
    }
    if pinCount > 1 {
      return Some(Pinned);
    }
    var ok, offsets, edges := SnapshotCsr(g);
    if !ok {
      return Some(Overrun);
    }
    ghost var lists := Lists(g.trees);
    var threads := if |edges| < 0x10_0000 || cores == 1 then 1 else if cores > 16 then 16 else cores;
    var bounds := Partition(offsets, |edges|, g.numVertices, threads);
    var ranges, chunks, interiors := Reserve(offsets, edges, bounds, threads, lists);
    if chunks * CHUNK_SLOT + interiors * INTERIOR_SLOT > newCapacity {
      return Some(CapacityExceeded);
    }
    var arena, roots, top, trees := Rebuild(newCapacity, readers, offsets, edges, bounds, ranges, chunks, interiors, lists);
    Adopt(g, arena, roots, top, trees, lists);
    error := None;
  }

  /** The rebuilt arena with its cursors published, its roots, and their table. */
  method Rebuild(newCapacity: nat, readers: nat -> Answer, offsets: seq<nat>, edges: seq<nat>, bounds: seq<nat>, ranges: seq<(nat, nat)>, chunks: nat,
                 interiors: nat, ghost lists: seq<seq<nat>>)
      returns (arena: Arena, roots: seq<Option<Slot>>, top: seq<TableUpper>, ghost trees: seq<Option<Tree>>)
    requires INTERIOR_SLOT <= newCapacity <= MAX_CAPACITY && chunks * CHUNK_SLOT + interiors * INTERIOR_SLOT <= newCapacity
    requires chunks == ChunksBefore(lists, |lists|) && interiors == InteriorsBefore(lists, |lists|)
    requires Csr(offsets, edges, lists) && Reserved(ranges, bounds, lists)
    requires forall v :: 0 <= v < |lists| ==> Ascending(lists[v])
    ensures fresh(arena) && arena.Valid() && arena.inUse == TilesBefore(lists, |lists|) && arena.lastStamp == 0
    ensures Packed(arena.mem, roots, trees, lists, |lists|)
    ensures Shape(top) && SPAN * |top| >= |roots| && forall v: nat :: v < |roots| ==> Get(top, v) == roots[v]
  {
    hide Csr, Reserved, Packed, ChunksBefore, InteriorsBefore, TilesBefore, Ascending, Shape, Get, Arena.Valid;
    arena := new Arena(newCapacity, readers);
    roots, trees := BuildAll(arena, offsets, edges, bounds, ranges, lists);
    top := FromRoots(roots);
    FewerInteriors(lists, |lists|);
    CapacityFits(chunks, interiors, newCapacity);
    PackedKeys(arena.mem, roots, trees, lists);
    arena.CommitRegions(chunks, interiors, TilesBefore(lists, |lists|));
  }
}
