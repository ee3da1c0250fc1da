/**
 * Two runs of single-edge inserts, from an empty graph, to a traversal that its stack is too small for: in
 * the last insert of the one, and in a read after the last insert of the other.
 *
 * One vertex takes ever smaller neighbours, so that its tree grows a spine to the left: eight inserts add one
 * interior. Once the spine is past the depth limit each insert asks for a rebuild. The others, with small trees,
 * are updated in between just often enough that the copy finds room and the rebuild does not: an update
 * takes a free chunk and logs another, and the log is stamped only when no chunk is free.
 */
module Climb {
  import opened Options
  import opened Sorted
  import opened Chunks
  import opened Trees
  import opened Balance
  import opened Pending
  import opened Arenas
  import opened Builds
  import opened Paths
  import opened CTrees
  import opened Ownership
  import opened Wals
  import opened Graphs
  import opened Batches
  import opened Headroom

  /** A tree from its left: interiors down that side, ids in the first leaf, a lower bound, ids right of the root, all ids. */
  datatype Spine = Spine(depth: nat, count: nat, low: nat, right: nat, size: nat) {
    predicate Full() {
      count == CHUNK_CAP
    }

    /** After an insert of the id below the lower bound. */
    function Taller(): Spine
      requires low > 0
    {
      Spine(depth + LeafLevels(Full()), if Full() then 8 else count + 1, low - 1,
            if depth > 0 then right else if Full() then 8 else 0, size + 1)
    }

    /** After eight inserts at a time, from a full first leaf. */
    function Climbed(n: nat): Spine
      requires 8 * n <= low
    {
      Spine(depth + n, CHUNK_CAP, low - 8 * n, if depth > 0 || n == 0 then right else 8, size + 8 * n)
    }

    /** The next insert leaves the root balanced. */
    predicate Even() {
      3 * (size - right + 1) <= 2 * (size + 1) && 3 * right <= 2 * (size + 1)
    }

    /** No rebuild in the next insert traverses a 65th left turn. */
    predicate Sheltered() {
      depth <= MAX_DEPTH && size <= VERTICES && (depth < MAX_DEPTH || !Full() || Even())
    }
  }

  /** The tree is as the spine says, and no path has more left turns than the leftmost. */
  ghost predicate Tall(t: Option<Tree>, sp: Spine) {
    && t.Some? && LeftDepth(t.value) == LeftSteps(t.value) == sp.depth && LeftCount(t.value) == sp.count
    && RightSize(t.value) == sp.right && |Elems(t.value)| == sp.size && AllAtLeast(Elems(t.value), sp.low)
  }

  const VERTICES: nat := 5002

  /** A run over that many vertices. */
  ghost predicate Wide(g: Graph, readers: nat -> Answer)
    reads g, g.arena, g.log, g.wal
  {
    Running(g, readers) && g.numVertices == VERTICES == |g.trees|
  }

  /** Chunks and interiors that are free, and that are logged. Nothing is left between the cursors. */
  datatype Books = Books(chunks: nat, interiors: nat, loggedChunks: nat, loggedInteriors: nat)

  ghost predicate Kept(g: Graph, b: Books)
    reads g, g.arena, g.log
  {
    && g.arena.Supply() == Stock(true, true, 0, b.chunks, b.interiors)
    && |g.log.chunks| == b.loggedChunks && |g.log.interiors| == b.loggedInteriors
  }

  /** The books an insert works with: with no free chunk the log is stamped first. */
  function Opened(b: Books): Books {
    if b.chunks == 0 then Books(b.loggedChunks, b.interiors + b.loggedInteriors, 0, 0) else b
  }

  /** Room for the copy and, above a spine, for nothing more. */
  predicate Fitting(b: Books, sp: Spine) {
    && b.chunks >= LeafCost(sp.Full()) && b.interiors >= sp.depth + LeafLevels(sp.Full())
    && (sp.depth > 0 ==> b.chunks == LeafCost(sp.Full()))
    && b.loggedChunks + b.loggedInteriors + 1 + sp.depth < 3968
  }

  /** The books after the insert. */
  function Spent(b: Books, sp: Spine): Books
    requires Fitting(b, sp)
  {
    Books(b.chunks - LeafCost(sp.Full()), b.interiors - (sp.depth + LeafLevels(sp.Full())), b.loggedChunks + 1, b.loggedInteriors + sp.depth)
  }

  /** Whether the next insert unbalances the root, read off the spine. */
  lemma DueIff(t: Tree, sp: Spine, d: nat)
    requires Tall(Some(t), sp) && sp.low == d + 1 && Ordered(t) && t.Branch?
    ensures Due(t, d) <==> !sp.Even()
  {
    OrderedElems(t);
    OrderedElems(t.left);
    assert Elems(t.left)[0] == Elems(t)[0];
    hide LeftDepth, LeftSteps, LeftCount;
  }

  lemma HasRoot(t: Option<Tree>, sp: Spine)
    requires Tall(t, sp)
    ensures t.Some? && (t.value.Branch? <==> sp.depth > 0) && Size(t.value) >= 0
  {
    hide LeftSteps, Elems;
  }

  /** The least new id goes left all the way; its insertion overruns a traversal exactly where nothing shelters it. */
  lemma LeastFacts(t: Option<Tree>, sp: Spine, d: nat)
    requires Tall(t, sp) && sp.low == d + 1 && sp.depth <= MAX_DEPTH && sp.size <= VERTICES && Sound(t.value)
    ensures Under(d, t.value) && Size(t.value) == sp.size && LeftDepth(t.value) == sp.depth && LeafIsFull(t, d) == sp.Full()
    ensures PathLen(t.value, d) == TurnsTo(t.value, d) == sp.depth && d !in Elems(t.value)
    ensures Overruns(t, d) <==> !sp.Sheltered()
  {
    HasRoot(t, sp);
    UnderLeft(t.value, d);
    OrderedElems(t.value);
    OverrunIff(t.value, d);
    if t.value.Branch? {
      DueIff(t.value, sp, d);
    }
    hide LeftDepth, LeftSteps, LeftCount, Elems, PathLen, TurnsTo, EndCount, Overruns, Due, Sound;
  }

  lemma IsMetered(s: Stock, b: Books, t: Option<Tree>, sp: Spine, d: nat)
    requires s == Stock(true, true, 0, b.chunks, b.interiors) && Fitting(b, sp) && sp.Sheltered()
    requires Tall(t, sp) && sp.low == d + 1 && Sound(t.value)
    ensures Metered(s, t, d)
  {
    LeastFacts(t, sp, d);
    LimitIff(1, Size(t.value) + 1);
    hide PathLen, EndCount, TurnsTo, LeftDepth, LeftCount, LeftSteps, RebuildSteps, DepthLimit, Elems, Sound, Under, Tall;
  }

  /** What an insert under known books leaves. */
  lemma PushedTall(s: Stock, s': Stock, b: Books, t: Option<Tree>, t': Option<Tree>, sp: Spine, d: nat, chunks: int, interiors: int)
    requires s == Stock(true, true, 0, b.chunks, b.interiors) && Fitting(b, sp) && sp.low == d + 1
    requires Tall(t, sp) && Pushed(t, t', d, s, s', chunks, interiors) && Gains(t, t', [d])
    ensures t'.Some? && d in RElems(t')
    ensures Tall(t', sp.Taller())
    ensures s' == Stock(true, true, 0, Spent(b, sp).chunks, Spent(b, sp).interiors) && chunks == 1 && interiors == sp.depth
  {
    hide LeftDepth, LeftCount, LeftSteps, RightSize, Elems;
    assert d in [d];
    forall i | 0 <= i < |Elems(t'.value)| ensures d <= Elems(t'.value)[i] {
      assert Elems(t'.value)[i] in RElems(t');
    }
  }

  method Push(g: Graph, v: U32, d: U32, ghost readers: nat -> Answer, ghost b: Books, ghost sp: Spine) returns (r: EdgeResult)
    requires Wide(g, readers) && Silent(readers) && Kept(g, b) && v < VERTICES && d < VERTICES
    requires Tall(g.trees[v], sp) && sp.low == d + 1 && sp.Sheltered() && Fitting(Opened(b), sp)
    modifies g, g.arena, g.log
    ensures r == Done(true) && g.arena == old(g.arena)
    ensures Wide(g, readers) && Kept(g, Spent(Opened(b), sp)) && Tall(g.trees[v], sp.Taller()) && d in RElems(g.trees[v])
    ensures forall w :: 0 <= w < VERTICES && w != v ==> g.trees[w] == old(g.trees[w])
  {
    hide Graph.Valid, Metered, Pushed, Tall, Gains, LeafCost, LeafLevels, Fitting, Graph.PushReady, Graph.PushDry, RElems, Graph.Unpublished;
    ghost var before, s := g.trees[v], Stock(true, true, 0, Opened(b).chunks, Opened(b).interiors);
    MayPush(g, v, d, readers, b, sp);
    r := g.InsertEdge(v, d);
    ghost var logged := if b.chunks == 0 then 0 else b.loggedChunks;
    ghost var loggedInteriors := if b.chunks == 0 then 0 else b.loggedInteriors;
    PushedTall(s, g.arena.Supply(), Opened(b), before, g.trees[v], sp, d, |g.log.chunks| - logged, |g.log.interiors| - loggedInteriors);
  }

  lemma MayPush(g: Graph, v: U32, d: U32, readers: nat -> Answer, b: Books, sp: Spine)
    requires Wide(g, readers) && Silent(readers) && Kept(g, b) && v < VERTICES && d < VERTICES
    requires Tall(g.trees[v], sp) && sp.low == d + 1 && sp.Sheltered() && Fitting(Opened(b), sp)
    ensures if b.chunks == 0 then g.PushDry(v, d) else g.PushReady(v, d)
  {
    hide Graph.Valid, Metered, Elems, LeftSteps, LeftCount, RightSize, RootAt, LeafCost, LeafLevels, RSlots, State, VertexBounded, Sound, Arena.Valid;
    hide Graph.Consistent, Graph.Stamps, Spine.Sheltered;
    g.AtVertex(v);
    assert Sound(g.trees[v].value) by { SoundAt(g.arena.mem, g.roots[v], g.trees[v]); }
    IsMetered(Stock(true, true, 0, Opened(b).chunks, Opened(b).interiors), Opened(b), g.trees[v], sp, d);
  }

  lemma SoundAt(m: Mem, root: Option<Slot>, t: Option<Tree>)
    requires RootAt(m, root, t) && t.Some?
    ensures Sound(t.value)
  {
  }

  // -- The other vertices ---------------------------------------------------------------

  /** One id, and `j` more. */
  function Bud(j: nat): Spine
    requires j <= 14
  {
    Spine(0, 1 + j, 14 - j, 0, 1 + j)
  }

  /** Vertex `cur` has taken `j` updates and can take 14; those after it have taken none. */
  ghost predicate Pool(trees: seq<Option<Tree>>, cur: nat, j: nat) {
    && 2 <= cur < VERTICES == |trees| && j <= 14 && Tall(trees[cur], Bud(j))
    && forall v :: cur < v < VERTICES ==> Tall(trees[v], Bud(0))
  }

  function Remaining(cur: nat, j: nat): nat
    requires cur < VERTICES && j <= 14
  {
    14 * (VERTICES - 1 - cur) + (14 - j)
  }

  /** One update of a small tree: a free chunk is used and another logged. */
  method Update(g: Graph, cur: nat, j: nat, ghost readers: nat -> Answer, ghost b: Books) returns (cur': nat, j': nat)
    requires Wide(g, readers) && Silent(readers) && Kept(g, b) && Pool(g.trees, cur, j) && Remaining(cur, j) > 0
    requires Opened(b).chunks > 0 && Opened(b).loggedChunks + Opened(b).loggedInteriors + 1 < 3968
    modifies g, g.arena, g.log
    ensures g.arena == old(g.arena) && Wide(g, readers)
    ensures var o := Opened(b); Kept(g, Books(o.chunks - 1, o.interiors, o.loggedChunks + 1, o.loggedInteriors))
    ensures Pool(g.trees, cur', j') && Remaining(cur', j') == Remaining(cur, j) - 1
    ensures g.trees[0] == old(g.trees[0])
  {
    hide Graph.Valid, Tall, Wide, Kept, Bud, Fitting, Spent, Spine.Taller, Spine.Sheltered, RElems;
    WideLength(g, readers);
    cur', j' := if j == 14 then cur + 1 else cur, if j == 14 then 0 else j;
    ghost var before := g.trees;
    BudFits(Opened(b), j');
    var _ := Push(g, cur', 13 - j', readers, b, Bud(j'));
    WideLength(g, readers);
    j' := j' + 1;
  }

  lemma BudFits(b: Books, j: nat)
    requires j < 14 && b.chunks > 0 && b.loggedChunks + b.loggedInteriors + 1 < 3968
    ensures Bud(j).low == 14 - j && Bud(j).Sheltered() && Fitting(b, Bud(j)) && Bud(j).Taller() == Bud(j + 1)
    ensures Spent(b, Bud(j)) == Books(b.chunks - 1, b.interiors, b.loggedChunks + 1, b.loggedInteriors)
  {
  }

  lemma WideLength(g: Graph, readers: nat -> Answer)
    requires Wide(g, readers)
    ensures |g.trees| == VERTICES == g.numVertices && g.Valid() && g.guarded && !g.walFailed && g.wal == null
  {
    hide Graph.Valid;
  }

  /** Update small trees until exactly `n` of `total` chunks are free; the first update has the log stamped. */
  method Meter(g: Graph, n: nat, total: nat, cur0: nat, j0: nat, ghost readers: nat -> Answer, ghost interiors: nat, ghost logged: nat)
      returns (cur: nat, j: nat)
    requires Wide(g, readers) && Silent(readers) && Kept(g, Books(0, interiors, total, logged)) && Pool(g.trees, cur0, j0)
    requires 1 <= n < total && Remaining(cur0, j0) >= total - n && total < 3900
    modifies g, g.arena, g.log
    ensures g.arena == old(g.arena) && Wide(g, readers) && Kept(g, Books(n, interiors + logged, total - n, 0))
    ensures Pool(g.trees, cur, j) && Remaining(cur, j) == Remaining(cur0, j0) - (total - n)
    ensures g.trees[0] == old(g.trees[0])
  {
    hide Graph.Valid, Tall, Wide, Kept, Pool, Remaining;
    WideLength(g, readers);
    cur, j := cur0, j0;
    PoolRange(g.trees, cur, j);
    for i := 0 to total - n
      invariant g.arena == old(g.arena) && Wide(g, readers) && |g.trees| == VERTICES && cur < VERTICES && j <= 14
      invariant Kept(g, if i == 0 then Books(0, interiors, total, logged) else Books(total - i, interiors + logged, i, 0))
      invariant Pool(g.trees, cur, j) && Remaining(cur, j) == Remaining(cur0, j0) - i
      invariant g.trees[0] == old(g.trees[0])
    {
      cur, j := Update(g, cur, j, readers, if i == 0 then Books(0, interiors, total, logged) else Books(total - i, interiors + logged, i, 0));
      WideLength(g, readers);
      PoolRange(g.trees, cur, j);
    }
  }

  lemma PoolRange(trees: seq<Option<Tree>>, cur: nat, j: nat)
    requires Pool(trees, cur, j)
    ensures cur < VERTICES && j <= 14
  {
  }

  // -- One level up -----------------------------------------------------------------------

  /** No chunk is free; `total` are logged, and `interiors` interiors are free or logged. */
  ghost predicate AtLevel(g: Graph, readers: nat -> Answer, sp: Spine, total: nat, interiors: nat, cur: nat, j: nat)
    reads g, g.arena, g.log, g.wal
  {
    && Wide(g, readers) && Tall(g.trees[0], sp) && Pool(g.trees, cur, j)
    && g.log.chunks != [] && |g.log.interiors| <= interiors
    && Kept(g, Books(0, interiors - |g.log.interiors|, total, |g.log.interiors|))
  }

  /** Meter the stock, then give vertex 0 its next smaller neighbour. */
  method Step(g: Graph, sp: Spine, total: nat, cur0: nat, j0: nat, ghost readers: nat -> Answer, ghost interiors: nat)
      returns (cur: nat, j: nat, r: EdgeResult)
    requires Silent(readers) && AtLevel(g, readers, sp, total, interiors, cur0, j0)
    requires 0 < sp.low <= VERTICES && sp.Sheltered() && total >= 4 && total < 1000 && sp.depth < interiors < 1000
    requires cur0 < VERTICES && j0 <= 14 && Remaining(cur0, j0) >= total
    modifies g, g.arena, g.log
    ensures r == Done(true) && g.arena == old(g.arena) && cur < VERTICES && j <= 14 && Remaining(cur, j) + total >= Remaining(cur0, j0)
    ensures var n := LeafLevels(sp.Full()); AtLevel(g, readers, sp.Taller(), total - n, interiors - n, cur, j)
  {
    hide Graph.Valid, Tall, Pool, Remaining, Spine.Sheltered, Spine.Taller;
    var n := if sp.Full() then 2 else 1;
    ghost var logged := |g.log.interiors|;
    cur, j := Meter(g, n, total, cur0, j0, readers, interiors - logged, logged);
    PoolRange(g.trees, cur, j);
    ghost var b := Books(n, interiors, total - n, 0);
    ghost var before := g.trees;
    assert Fitting(b, sp);
    r := Push(g, 0, sp.low - 1, readers, b, sp);
    SamePool(before, g.trees, cur, j);
  }

  lemma SamePool(trees: seq<Option<Tree>>, trees': seq<Option<Tree>>, cur: nat, j: nat)
    requires Pool(trees, cur, j) && |trees'| == VERTICES
    requires forall w :: 0 <= w < VERTICES && w != 0 ==> trees'[w] == trees[w]
    ensures Pool(trees', cur, j)
  {
    hide Tall;
  }

  /** The full first leaf has split, and its left half has taken `i` more. */
  function Refilling(sp: Spine, i: nat): Spine
    requires 8 <= sp.low && i <= 7
  {
    Spine(sp.depth + 1, 8 + i, sp.low - 1 - i, if sp.depth > 0 then sp.right else 8, sp.size + 1 + i)
  }

  /** Eight inserts: the full first leaf splits, and its left half fills up again. */
  method Level(g: Graph, sp: Spine, total: nat, cur0: nat, j0: nat, ghost readers: nat -> Answer, ghost interiors: nat)
      returns (cur: nat, j: nat)
    requires Silent(readers) && AtLevel(g, readers, sp, total, interiors, cur0, j0)
    requires sp.Full() && 8 <= sp.low <= VERTICES && sp.depth < MAX_DEPTH && sp.size + 8 <= VERTICES
    requires 5 <= total < 1000 && sp.depth + 2 < interiors < 1000
    requires cur0 < VERTICES && j0 <= 14 && Remaining(cur0, j0) >= 8 * total
    modifies g, g.arena, g.log
    ensures g.arena == old(g.arena) && cur < VERTICES && j <= 14 && Remaining(cur, j) + 8 * total >= Remaining(cur0, j0)
    ensures AtLevel(g, readers, sp.Climbed(1), total - 1, interiors - 1, cur, j)
  {
    hide AtLevel, Remaining;
    var r;
    cur, j, r := Step(g, sp, total, cur0, j0, readers, interiors);
    for i := 0 to 7
      invariant g.arena == old(g.arena) && cur < VERTICES && j <= 14 && Remaining(cur, j) + (1 + i) * total >= Remaining(cur0, j0)
      invariant AtLevel(g, readers, Refilling(sp, i), total - 1, interiors - 1, cur, j)
    {
      cur, j, r := Step(g, Refilling(sp, i), total - 1, cur, j, readers, interiors - 1);
    }
  }

  // -- The start ----------------------------------------------------------------------------

  lemma {:induction false} ShapedLeaves(t: Tree, vals: seq<nat>)
    requires Shaped(t, vals) && vals != []
    ensures LeafCount(t) == Leaves(|vals|)
  {
    match t
    case Leaf(_, _) =>
    case Branch(_, l, r, _, _) =>
      SplitLeaves(|vals|);
      var mid := BuildSplit(|vals|);
      ShapedLeaves(l, vals[..mid]);
      ShapedLeaves(r, vals[mid..]);
  }

  /** The slots of a rebuilt tree, by kind. */
  lemma RebuiltSlots(m: Mem, root: Option<Slot>, t: Option<Tree>, lo: nat, n: nat)
    requires RootAt(m, root, t) && Holds(t, lo, n) && n > 0
    ensures |ChunksOf(t.value)| == Leaves(n) && |InteriorsOf(t.value)| + 1 == Leaves(n)
    ensures |RSlots(t)| + 1 == 2 * Leaves(n)
  {
    ShapedLeaves(t.value, RElems(t));
    SlotCount(m, t.value);
    hide Leaves, Stored, Shaped, Ordered, Apart;
    assert RSlots(t) == ChunksOf(t.value) + InteriorsOf(t.value);
    UnionSize(ChunksOf(t.value), InteriorsOf(t.value));
  }

  lemma KindBag(interior: bool, idx: seq<nat>, others: seq<nat>, u: set<Slot>)
    requires IdxBag(interior, idx) + IdxBag(!interior, others) == multiset(u)
    ensures IdxBag(interior, idx) == multiset(set s | s in u && s.InteriorSlot? == interior)
  {
    var kind := set s | s in u && s.InteriorSlot? == interior;
    forall s ensures IdxBag(interior, idx)[s] == multiset(kind)[s] {
      IdxBagMembers(interior, idx, s);
      IdxBagMembers(!interior, others, s);
      assert (IdxBag(interior, idx) + IdxBag(!interior, others))[s] == IdxBag(interior, idx)[s] + IdxBag(!interior, others)[s];
    }
  }

  /** A log that holds exactly the slots of a tree. */
  lemma LoggedKinds(chunks: seq<nat>, interiors: seq<nat>, t: Tree)
    requires Bag(chunks, interiors) == multiset(Slots(t))
    ensures |chunks| == |ChunksOf(t)| && |interiors| == |InteriorsOf(t)|
  {
    KindBag(false, chunks, interiors, Slots(t));
    assert IdxBag(true, interiors) + IdxBag(false, chunks) == multiset(Slots(t));
    KindBag(true, interiors, chunks, Slots(t));
    assert ChunksOf(t) == set s | s in Slots(t) && s.InteriorSlot? == false;
    assert InteriorsOf(t) == set s | s in Slots(t) && s.InteriorSlot? == true;
    IdxBagSize(false, chunks);
    IdxBagSize(true, interiors);
    hide IdxBag;
  }

  lemma SplitEven(k: nat)
    requires k > 0
    ensures BuildSplit(CHUNK_CAP * Pow2(k)) == CHUNK_CAP * Pow2(k - 1) && CHUNK_CAP * Pow2(k) > CHUNK_CAP
  {
  }

  /** A rebuilt tree whose leaves are all full, a power of two of them. */
  lemma {:induction false} ShapedSpine(t: Tree, vals: seq<nat>, k: nat)
    requires Shaped(t, vals) && Ordered(t) && |vals| == CHUNK_CAP * Pow2(k)
    ensures LeftDepth(t) == LeftSteps(t) == k && LeftCount(t) == CHUNK_CAP && Size(t) == |vals|
    ensures RightSize(t) == if k == 0 then 0 else CHUNK_CAP * Pow2(k - 1)
  {
    if k > 0 {
      SplitEven(k);
      var mid := BuildSplit(|vals|);
      assert t.Branch?;
      ShapedSpine(t.left, vals[..mid], k - 1);
      ShapedSpine(t.right, vals[mid..], k - 1);
    }
  }

  lemma HoldsLow(t: Option<Tree>, lo: nat, n: nat)
    requires Holds(t, lo, n) && n > 0
    ensures t.Some? && AllAtLeast(Elems(t.value), lo)
  {
    forall i | 0 <= i < |Elems(t.value)| ensures lo <= Elems(t.value)[i] { assert Elems(t.value)[i] in RElems(t); }
  }

  lemma HoldsBud(t: Option<Tree>)
    requires Holds(t, 14, 1)
    ensures Tall(t, Bud(0))
  {
    FewShaped(t.value, RElems(t));
    HoldsLow(t, 14, 1);
  }

  lemma HoldsTall(m: Mem, root: Option<Slot>, t: Option<Tree>, sp: Spine)
    requires Holds(t, sp.low, sp.size) && RootAt(m, root, t) && (sp == NARROW || sp == BROAD)
    ensures Tall(t, sp)
  {
    assert Pow2(0) == 1;
    assert Pow2(2) == 4;
    assert Pow2(5) == 32;
    ShapedSpine(t.value, RElems(t), sp.depth);
    HoldsLow(t, sp.low, sp.size);
    hide Shaped, Stored, LeftDepth, LeftSteps, LeftCount, RightSize, Sound, Elems;
  }

  lemma Numbers()
    ensures !PreferPathCopy(0, 1950) && !PreferPathCopy(1950, 30) && !PreferPathCopy(0, 15) && !PreferPathCopy(0, 960) && !PreferPathCopy(0, 1)
    ensures Leaves(1950) == 130 && BuildBytes(1950) == 10384 && BuildBytes(1980) == 10544 && BuildBytes(15) == BuildBytes(1) == 64 && BuildBytes(960) == 5104
  {
    assert ILog2(1) == 0;
    assert ILog2(130) == 7 by { LogOf130(); }
  }

  lemma LogOf130()
    ensures ILog2(130) == 7
  {
    assert ILog2(2) == 1;
    assert ILog2(8) == 3;
    assert ILog2(32) == 5;
  }

  /** Vertex 0 begins with one full leaf, or with 64 of them. */
  const NARROW := Spine(0, CHUNK_CAP, 513, 0, 15)
  const BROAD := Spine(6, CHUNK_CAP, 465, 480, 960)

  function Rest(sp: Spine): nat {
    BuildBytes(sp.size) + 64 * (VERTICES - 2)
  }

  /** Vertex 1 has 130 leaves. */
  method FirstList(readers: nat -> Answer, sp: Spine) returns (g: Graph)
    requires sp == NARROW || sp == BROAD
    ensures fresh(g) && fresh(g.arena) && fresh(g.log) && Wide(g, readers) && Filling(g, readers, 10544 + Rest(sp))
    ensures |g.log.Contents()| == 0 && Holds(g.trees[1], 0, 1950)
    ensures forall v :: 0 <= v < VERTICES && v != 1 ==> g.trees[v] == None
  {
    hide Graph.Valid, Holds, PreferPathCopy, RSlots, BuildBytes, Bag, Arena.Supply, Bare, Leaves;
    Numbers();
    g := Start(VERTICES, 10384 + 10544 + Rest(sp), readers);
    RangeMembers(0, 1950);
    NoSlots(None, 0);
    BagSize(g.log.chunks, g.log.interiors);
    var _ := Fill(g, 1, 0, 0, Range(0, 1950), readers, 10384 + 10544 + Rest(sp));
  }

  /** Vertex 1 is rebuilt once more, which logs 130 chunks and 129 interiors. */
  method Stockpile(readers: nat -> Answer, sp: Spine) returns (g: Graph)
    requires sp == NARROW || sp == BROAD
    ensures fresh(g) && fresh(g.arena) && fresh(g.log) && Wide(g, readers) && Filling(g, readers, Rest(sp))
    ensures |g.log.chunks| == 130 && |g.log.interiors| == 129
    ensures forall v :: 0 <= v < VERTICES && v != 1 ==> g.trees[v] == None
  {
    hide Graph.Valid, Holds, PreferPathCopy, RSlots, BuildBytes, Bag, Arena.Supply, Bare, Leaves, RootAt;
    g := FirstList(readers, sp);
    Numbers();
    RangeMembers(1950, 30);
    ghost var z := g.trees[1];
    ListSlots(g, readers);
    var _ := Fill(g, 1, 0, 1950, Range(1950, 30), readers, 10544 + Rest(sp));
    LoggedTree(g.log.chunks, g.log.interiors, z);
  }

  lemma ListSlots(g: Graph, readers: nat -> Answer)
    requires Wide(g, readers) && Holds(g.trees[1], 0, 1950) && |g.log.Contents()| == 0
    ensures g.trees[1].Some? && |ChunksOf(g.trees[1].value)| == 130 && |InteriorsOf(g.trees[1].value)| == 129 && |RSlots(g.trees[1])| == 259
    ensures g.log.Contents() == multiset{}
  {
    hide Graph.Valid, RSlots, RElems, Leaves, RootAt, Shaped;
    g.AtVertex(1);
    Numbers();
    RebuiltSlots(g.arena.mem, g.roots[1], g.trees[1], 0, 1950);
  }

  lemma LoggedTree(chunks: seq<nat>, interiors: seq<nat>, t: Option<Tree>)
    requires t.Some? && Bag(chunks, interiors) == multiset(RSlots(t))
    ensures |chunks| == |ChunksOf(t.value)| && |interiors| == |InteriorsOf(t.value)|
  {
    LoggedKinds(chunks, interiors, t.value);
  }

  /** Two logs with equal contents are equally long, region by region. */
  lemma SameKinds(c1: seq<nat>, i1: seq<nat>, c2: seq<nat>, i2: seq<nat>)
    requires Bag(c1, i1) == Bag(c2, i2)
    ensures |c1| == |c2| && |i1| == |i2|
  {
    forall s ensures IdxBag(false, c1)[s] == IdxBag(false, c2)[s] && IdxBag(true, i1)[s] == IdxBag(true, i2)[s] {
      IdxBagMembers(false, c1, s);
      IdxBagMembers(false, c2, s);
      IdxBagMembers(true, i1, s);
      IdxBagMembers(true, i2, s);
      assert Bag(c1, i1)[s] == IdxBag(false, c1)[s] + IdxBag(true, i1)[s];
      assert Bag(c2, i2)[s] == IdxBag(false, c2)[s] + IdxBag(true, i2)[s];
    }
    assert IdxBag(false, c1) == IdxBag(false, c2) && IdxBag(true, i1) == IdxBag(true, i2);
    IdxBagSize(false, c1);
    IdxBagSize(false, c2);
    IdxBagSize(true, i1);
    IdxBagSize(true, i2);
    hide IdxBag;
  }

  lemma NothingLeft(s: Stock)
    requires Bare(s) && s.gap == 0
    ensures s == Stock(true, true, 0, 0, 0)
  {
  }

  /** Vertex 0 has its first list, the others one id each, and the arena is spent. */
  method SetUp(readers: nat -> Answer, sp: Spine) returns (g: Graph)
    requires sp == NARROW || sp == BROAD
    ensures fresh(g) && fresh(g.arena) && fresh(g.log)
    ensures AtLevel(g, readers, sp, 130, 129, 2, 0)
  {
    hide Graph.Valid, Holds, Tall, PreferPathCopy, RSlots, BuildBytes, Bag, Arena.Supply, Bare, RootAt;
    g := Stockpile(readers, sp);
    Numbers();
    NoSlots(None, sp.low);
    NoSlots(None, 14);
    RangeMembers(sp.low, sp.size);
    BagSize(g.log.chunks, g.log.interiors);
    ghost var chunks, interiors := g.log.chunks, g.log.interiors;
    var _ := Fill(g, 0, sp.low, 0, Range(sp.low, sp.size), readers, Rest(sp));
    FirstTall(g, readers, sp);
    for v := 2 to VERTICES
      invariant fresh(g.arena) && Wide(g, readers) && Filling(g, readers, 64 * (VERTICES - v))
      invariant g.log.Contents() == Bag(chunks, interiors) && Tall(g.trees[0], sp)
      invariant forall w :: 2 <= w < v ==> Tall(g.trees[w], Bud(0))
      invariant forall w :: v <= w < VERTICES ==> g.trees[w] == None
    {
      var _ := Fill(g, v, 14, 0, [14], readers, 64 * (VERTICES - v));
      HoldsBud(g.trees[v]);
    }
    SameKinds(g.log.chunks, g.log.interiors, chunks, interiors);
    NothingLeft(g.arena.Supply());
  }

  lemma FirstTall(g: Graph, readers: nat -> Answer, sp: Spine)
    requires Wide(g, readers) && Holds(g.trees[0], sp.low, sp.size) && (sp == NARROW || sp == BROAD)
    ensures Tall(g.trees[0], sp)
  {
    hide Graph.Valid, Holds, RootAt;
    g.AtVertex(0);
    HoldsTall(g.arena.mem, g.roots[0], g.trees[0], sp);
  }

  // -- The runs -------------------------------------------------------------------------------

  /** 64 levels up from the empty graph, with chunks for one insert more and none for a rebuild. */
  method Brink(readers: nat -> Answer, sp: Spine) returns (g: Graph, ghost b: Books)
    requires Silent(readers) && (sp == NARROW || sp == BROAD)
    ensures fresh(g) && fresh(g.arena) && fresh(g.log)
    ensures Wide(g, readers) && Kept(g, b) && b.chunks == 2 && b.interiors > MAX_DEPTH && b.loggedChunks < 100 && b.loggedInteriors == 0
    ensures Tall(g.trees[0], sp.Climbed(MAX_DEPTH - sp.depth))
  {
    hide Graph.Valid, Tall, Pool, AtLevel, Remaining, RElems;
    hide Arena.Supply, Arena.Valid;
    g := SetUp(readers, sp);
    var n := MAX_DEPTH - sp.depth;
    var cur: nat, j: nat := 2, 0;
    Enough();
    for k := 0 to n
      invariant fresh(g.arena) && cur < VERTICES && j <= 14 && Remaining(cur, j) >= 130 * 8 * (n - k) + 130
      invariant AtLevel(g, readers, sp.Climbed(k), 130 - k, 129 - k, cur, j)
    {
      cur, j := Level(g, sp.Climbed(k), 130 - k, cur, j, readers, 129 - k);
    }
    ghost var logged := |g.log.interiors|;
    LevelFacts(g, readers, sp.Climbed(n), 130 - n, 129 - n, cur, j);
    cur, j := Meter(g, 2, 130 - n, cur, j, readers, 129 - n - logged, logged);
    b := Books(2, 129 - n, 128 - n, 0);
  }

  lemma Enough()
    ensures Remaining(2, 0) >= 130 * 8 * 64 + 130
  {
  }

  lemma LevelFacts(g: Graph, readers: nat -> Answer, sp: Spine, total: nat, interiors: nat, cur: nat, j: nat)
    requires AtLevel(g, readers, sp, total, interiors, cur, j)
    ensures Wide(g, readers) && Tall(g.trees[0], sp) && Pool(g.trees, cur, j) && |g.log.interiors| <= interiors
    ensures Kept(g, Books(0, interiors - |g.log.interiors|, total, |g.log.interiors|))
  {
    hide Graph.Valid, Tall, Pool;
  }

  /** Above one leaf on the right, the next insert is brimful and unbalances the root. */
  lemma Toppling(g: Graph, readers: nat -> Answer, b: Books)
    requires Wide(g, readers) && Kept(g, b) && b.chunks == 2 && b.interiors > MAX_DEPTH
    requires Tall(g.trees[0], NARROW.Climbed(MAX_DEPTH))
    ensures g.DoomedAt(0, 0)
  {
    hide Graph.Valid, Elems, LeftSteps, LeftDepth, LeftCount, RightSize, RootAt, RSlots, State, VertexBounded, Sound, Arena.Valid, Overruns, PathLen, EndCount;
    hide Graph.Consistent, Graph.Stamps;
    g.AtVertex(0);
    assert Sound(g.trees[0].value) by { SoundAt(g.arena.mem, g.roots[0], g.trees[0]); }
    LeastFacts(g.trees[0], NARROW.Climbed(MAX_DEPTH), 0);
  }

  /**
   * The one run: batches and single inserts that all succeed, and a last insert that panics in its own rebuild.
   * The published trees are as they were, and the graph is poisoned.
   */
  method InsertPanics(readers: nat -> Answer) returns (g: Graph, r: EdgeResult)
    requires Silent(readers)
    ensures fresh(g) && r == Panicked && g.poisoned && !g.guarded && |g.trees| > 0
    ensures Tall(g.trees[0], NARROW.Climbed(MAX_DEPTH)) && !HasEdge(g.trees, 0, 0)
  {
    hide Graph.Valid, Tall, RElems, Wide, Kept, HasEdge, Ascending, Graph.DoomedAt, Graph.Whole, Arena.Valid;
    ghost var b;
    g, b := Brink(readers, NARROW);
    Toppling(g, readers, b);
    WideLength(g, readers);
    NoneBelow(g.trees, NARROW.Climbed(MAX_DEPTH));
    r := g.InsertEdge(0, 0);
    g.DropPanicking();
  }

  lemma NoneBelow(trees: seq<Option<Tree>>, sp: Spine)
    requires |trees| > 0 && Tall(trees[0], sp) && sp.low > 0
    ensures !HasEdge(trees, 0, 0)
  {
    hide LeftDepth, LeftSteps, LeftCount, RightSize, Elems;
  }

  lemma IsEdge(trees: seq<Option<Tree>>)
    requires |trees| > 0 && 0 in RElems(trees[0])
    ensures HasEdge(trees, 0, 0)
  {
    hide RElems;
  }

  /**
   * The other run: the last insert succeeds as well, since the root stays balanced and the rebuild below it
   * finds no room, and then a read of the vertex panics.
   */
  method ReadPanics(readers: nat -> Answer) returns (g: Graph, r: EdgeResult, ok: bool)
    requires Silent(readers)
    ensures fresh(g) && g.Valid() && r == Done(true) && !ok && |g.trees| > 0
    ensures Tall(g.trees[0], BROAD.Climbed(MAX_DEPTH - 6).Taller()) && HasEdge(g.trees, 0, 0)
  {
    hide Graph.Valid, Tall, RElems, Wide, Kept, HasEdge, Ascending, Arena.Supply, Fitting, Opened, Spent;
    ghost var b;
    g, b := Brink(readers, BROAD);
    ghost var sp := BROAD.Climbed(MAX_DEPTH - 6);
    LastFits(b, sp);
    r := Push(g, 0, 0, readers, b, sp);
    WideLength(g, readers);
    TallSteps(g.trees[0], sp.Taller());
    IsEdge(g.trees);
    var whole, _ := g.NeighborsInto(0);
    ok := whole;
  }

  lemma LastFits(b: Books, sp: Spine)
    requires b.chunks == 2 && b.interiors > MAX_DEPTH && b.loggedChunks < 100 && b.loggedInteriors == 0
    requires sp.depth == MAX_DEPTH && sp.Full()
    ensures Fitting(Opened(b), sp)
  {
  }

  lemma TallSteps(t: Option<Tree>, sp: Spine)
    requires Tall(t, sp)
    ensures t.Some? && LeftSteps(t.value) == sp.depth
  {
  }
}
