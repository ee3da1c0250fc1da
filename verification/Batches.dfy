/** Runs from an empty graph: their start, and batches that are sure to be rebuilt. */
module Batches {
  import opened Options
  import opened Sorted
  import opened Chunks
  import opened Trees
  import opened Balance
  import opened Pending
  import opened Arenas
  import opened Builds
  import opened CTrees
  import opened Wals
  import opened Graphs

  /** An empty graph under its first guard. */
  method Start(vertices: nat, bytes: nat, readers: nat -> Answer) returns (g: Graph)
    requires vertices <= MAX_VERTICES && INTERIOR_SLOT <= bytes < INTERIOR_SLOT * RESERVED_INTERIOR && bytes % INTERIOR_SLOT == 0
    ensures fresh(g) && fresh(g.arena) && fresh(g.log) && g.wal == null && g.numVertices == vertices == |g.trees|
    ensures g.Valid() && g.guarded && !g.walFailed && g.arena.readers == readers
    ensures g.arena.youngChunkStart == g.arena.youngInteriorStart == 0
    ensures Bare(g.arena.Supply()) && g.arena.Supply().gap == bytes
    ensures g.log.chunks == [] && g.log.interiors == []
    ensures forall v :: 0 <= v < vertices ==> g.trees[v] == None
  {
    hide Graph.Valid, Graph.Current;
    g := new Graph(vertices, bytes, 0, readers);
    g.Lengths();
    var _ := g.OpenGuard(0);
  }

  /** A batch of new destinations that the sizes send to a rebuild, and that finds room. */
  method RebuildBatch(g: Graph, src: U32, dsts: seq<U32>) returns (r: BatchResult)
    requires g.Valid() && g.guarded && !g.walFailed && g.wal == null && Ascending(dsts)
    requires src < g.numVertices && src < |g.trees| && g.InReach(dsts)
    requires !PreferPathCopy(|RElems(g.trees[src])|, |dsts|) && g.Spacious(src, dsts)
    modifies g, g.arena, g.log
    ensures r == Count(|dsts|)
    ensures g.Valid() && g.guarded && !g.walFailed && g.wal == null && g.arena == old(g.arena)
    ensures g.arena.youngChunkStart == old(g.arena.youngChunkStart) && g.arena.youngInteriorStart == old(g.arena.youngInteriorStart)
    ensures |g.trees| == |old(g.trees)| && g.trees == old(g.trees)[src := g.trees[src]]
    ensures BatchMeans(old(g.trees)[src], g.trees[src], dsts, |dsts|)
    ensures g.trees[src].Some? && Shaped(g.trees[src].value, RElems(g.trees[src]))
    ensures Bumped(old(g.arena.Supply()), g.arena.Supply(), BuildBytes(|RElems(old(g.trees)[src])| + |dsts|))
    ensures g.log.Contents() == old(g.log.Contents()) + multiset(RSlots(old(g.trees)[src]))
  {
    hide Graph.Valid, Graph.Held, Graph.Spacious, Graph.Starved, Graph.Harmed, Graph.Recoverable, PreferPathCopy, RElems, RSlots, Shaped;
    hide Ascending, Bumped, BuildBytes, Bag, Arena.Supply, Gains, BatchMeans, NewOnes;
    AllNew(g, src, dsts);
    ghost var before := g.trees[src];
    var res, news, _, _ := g.InsertEdgesSorted(src, dsts);
    AllCounted(before, g.trees[src], dsts, |news|);
    r := res;
  }

  lemma AllNew(g: Graph, src: U32, dsts: seq<U32>)
    requires g.Valid() && src < g.numVertices && src < |g.trees| && g.Spacious(src, dsts)
    ensures dsts != [] && (forall x :: x in dsts ==> x !in RElems(g.trees[src])) && Ascending(RElems(g.trees[src]))
  {
    hide Graph.Valid, RElems, Graph.HasRoom, RootAt, RSlots, Ascending;
    g.AtVertex(src);
    RootAscending(g.arena.mem, g.roots[src], g.trees[src]);
  }

  lemma AllCounted(t: Option<Tree>, t': Option<Tree>, dsts: seq<nat>, n: nat)
    requires BatchMeans(t, t', dsts, n) && Ascending(RElems(t)) && Ascending(dsts)
    requires forall x :: x in dsts ==> x !in RElems(t)
    ensures n == |dsts|
  {
    hide RElems, Ascending;
    MergedSize(RElems(t), dsts, RElems(t'));
  }

  /** `n` ids from `lo` on. */
  function Range(lo: nat, n: nat): (s: seq<U32>)
    requires lo + n <= MAX_VERTICES
    ensures |s| == n && Ascending(s) && forall i :: 0 <= i < n ==> s[i] == lo + i
  {
    seq(n, i requires 0 <= i < n => lo + i)
  }

  lemma RangeMembers(lo: nat, n: nat)
    requires lo + n <= MAX_VERTICES
    ensures forall x: nat :: x in Range(lo, n) <==> lo <= x < lo + n
  {
    forall x: nat | lo <= x < lo + n ensures x in Range(lo, n) { assert Range(lo, n)[x - lo] == x; }
  }

  lemma StillBare(s: Stock, s': Stock, bytes: nat)
    requires Bumped(s, s', bytes) && Bare(s)
    ensures Bare(s') && s'.gap + bytes == s.gap
  {
  }

  lemma FewShaped(t: Tree, vals: seq<nat>)
    requires Shaped(t, vals) && 0 < |vals| <= CHUNK_CAP
    ensures t.Leaf? && t.chunk.count == |vals|
  {
  }

  lemma Leafed(g: Graph)
    requires g.Valid()
    ensures g.log.interiors != [] ==> g.log.chunks != []
  {
    hide Graph.Held;
  }

  // -- Filling an arena -------------------------------------------------------------

  /** No reader is ever found in the gate. */
  ghost predicate Silent(readers: nat -> Answer) {
    forall k: nat :: readers(k).emptyNext && readers(k).emptyAfter
  }

  /** The one guard of a run: no log on disk, and everything in the arena its own. */
  ghost predicate Running(g: Graph, readers: nat -> Answer)
    reads g, g.arena, g.log, g.wal
  {
    && g.Valid() && g.guarded && !g.walFailed && g.wal == null && g.numVertices == |g.trees|
    && g.arena.readers == readers && g.arena.youngChunkStart == g.arena.youngInteriorStart == 0
  }

  /** Nothing was freed yet, and `gap` bytes are left. */
  ghost predicate Filling(g: Graph, readers: nat -> Answer, gap: nat)
    reads g, g.arena, g.log, g.wal
  {
    Running(g, readers) && Bare(g.arena.Supply()) && g.arena.Supply().gap == gap
  }

  /** The vertex has the `n` ids from `lo` on, in the shape a rebuild gives them. */
  ghost predicate Holds(t: Option<Tree>, lo: nat, n: nat) {
    && |RElems(t)| == n && (forall x: nat :: x in RElems(t) <==> lo <= x < lo + n)
    && if n == 0 then t == None else t.Some? && Shaped(t.value, RElems(t))
  }

  lemma HoldsMore(t: Option<Tree>, t': Option<Tree>, lo: nat, n: nat, dsts: seq<nat>)
    requires Holds(t, lo, n) && BatchMeans(t, t', dsts, |dsts|) && dsts != []
    requires forall x: nat :: x in dsts <==> lo + n <= x < lo + n + |dsts|
    requires t'.Some? && Shaped(t'.value, RElems(t'))
    ensures Holds(t', lo, n + |dsts|)
  {
    hide RElems, Shaped;
  }

  lemma HoldsSize(t: Option<Tree>, lo: nat, n: nat)
    requires Holds(t, lo, n)
    ensures |RElems(t)| == n
  {
    hide RElems, Shaped;
  }

  lemma NoSlots(t: Option<Tree>, lo: nat)
    requires t == None
    ensures RSlots(t) == {} && Holds(t, lo, 0) && multiset(RSlots(t)) == multiset{}
  {
  }

  /** A rebuilt tree turns left as often as its leaves can be halved. */
  lemma {:induction false} ShapedSteps(t: Tree, vals: seq<nat>, k: nat)
    requires Shaped(t, vals) && vals != [] && Leaves(|vals|) <= Pow2(k)
    ensures LeftSteps(t) <= k
  {
    if t.Branch? {
      SplitLeaves(|vals|);
      var mid := BuildSplit(|vals|);
      assert k > 0;
      ShapedSteps(t.left, vals[..mid], k - 1);
      ShapedSteps(t.right, vals[mid..], k - 1);
    }
  }

  lemma HoldsSteps(t: Option<Tree>, lo: nat, n: nat)
    requires Holds(t, lo, n) && n <= 3840
    ensures RSteps(t) <= 8
  {
    if n > 0 {
      assert Pow2(2) == 4;
      assert Pow2(5) == 32;
      assert Leaves(n) <= 256 == Pow2(8);
      ShapedSteps(t.value, RElems(t), 8);
    }
  }

  lemma HasSpace(g: Graph, readers: nat -> Answer, gap: nat, src: nat, lo: nat, n: nat, dsts: seq<nat>)
    requires Filling(g, readers, gap) && src < |g.trees| && Holds(g.trees[src], lo, n)
    requires dsts != [] && forall x: nat :: x in dsts <==> lo + n <= x < lo + n + |dsts|
    requires gap >= BuildBytes(n + |dsts|) && |g.log.Contents()| + |RSlots(g.trees[src])| < 3968 && n <= 3840
    ensures g.Spacious(src, dsts)
  {
    hide Graph.Valid, RElems, RSlots, BuildBytes, Shaped, Bare, Arena.Supply, Bag, RSteps;
    HoldsSteps(g.trees[src], lo, n);
    BagSize(g.log.chunks, g.log.interiors);
  }

  /** Give a vertex its next ids, by a rebuild off the cursors. */
  method Fill(g: Graph, src: U32, lo: nat, n: nat, dsts: seq<U32>, ghost readers: nat -> Answer, ghost gap: nat) returns (r: BatchResult)
    requires Filling(g, readers, gap) && src < |g.trees| && Holds(g.trees[src], lo, n) && Ascending(dsts)
    requires dsts != [] && lo + n + |dsts| <= |g.trees| && !PreferPathCopy(n, |dsts|)
    requires forall x: nat :: x in dsts <==> lo + n <= x < lo + n + |dsts|
    requires gap >= BuildBytes(n + |dsts|) && |g.log.Contents()| + |RSlots(g.trees[src])| < 3968 && n <= 3840
    modifies g, g.arena, g.log
    ensures g.arena == old(g.arena) && r == Count(|dsts|) && |g.trees| == |old(g.trees)|
    ensures Filling(g, readers, gap - BuildBytes(n + |dsts|)) && Holds(g.trees[src], lo, n + |dsts|)
    ensures forall v :: 0 <= v < |g.trees| && v != src ==> g.trees[v] == old(g.trees)[v]
    ensures g.log.Contents() == old(g.log.Contents()) + multiset(RSlots(old(g.trees)[src]))
  {
    hide Graph.Valid, Graph.Spacious, PreferPathCopy, RElems, RSlots, Shaped, Ascending, Bare, BuildBytes, Bag, Arena.Supply, BatchMeans;
    HasSpace(g, readers, gap, src, lo, n, dsts);
    assert dsts[|dsts| - 1] in dsts;
    ghost var before := g.trees[src];
    ghost var s := g.arena.Supply();
    r := RebuildBatch(g, src, dsts);
    StillBare(s, g.arena.Supply(), BuildBytes(n + |dsts|));
    HoldsMore(before, g.trees[src], lo, n, dsts);
  }
}
