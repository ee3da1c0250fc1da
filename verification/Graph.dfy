/**
 * The dynamic graph and its single writer: edge inserts, both batch strategies, the write-ahead
 * log, commits and recovery. One object holds the fields of the graph and of its current guard.
 */
module Graphs {
  import opened Options
  import opened Sorted
  import opened Chunks
  import opened Trees
  import opened Balance
  import opened Pending
  import opened Arenas
  import opened Builds
  import opened Paths
  import opened CTrees
  import opened Ownership
  import opened RootTables
  import opened Wals
  import opened Merges

  const MAX_VERTICES: nat := 0xFFFF_FFFF

  // -- What a graph means ---------------------------------------------------------

  ghost predicate HasEdge(trees: seq<Option<Tree>>, src: nat, dst: nat) {
    src < |trees| && dst in RElems(trees[src])
  }

  /** The log holds a record for each edge and no other record. */
  ghost predicate Recorded(records: seq<EdgeRecord>, trees: seq<Option<Tree>>) {
    forall r: EdgeRecord :: r in records <==> HasEdge(trees, r.src, r.dst)
  }

  ghost predicate InRange(trees: seq<Option<Tree>>) {
    forall v, x :: 0 <= v < |trees| && x in RElems(trees[v]) ==> x < |trees|
  }

  ghost function EdgeTotal(trees: seq<Option<Tree>>): nat {
    if trees == [] then 0 else EdgeTotal(trees[..|trees| - 1]) + |RElems(trees[|trees| - 1])|
  }

  /**
   * The scapegoat bound holds at every vertex but those where a rebuild once found no room, and
   * there the path is still no longer than the guard allows.
   */
  ghost predicate Bounded(trees: seq<Option<Tree>>, skewed: set<nat>) {
    forall v :: 0 <= v < |trees| ==> VertexBounded(trees[v], v in skewed)
  }

  ghost predicate VertexBounded(t: Option<Tree>, skewed: bool) {
    && (!skewed ==> RHeight(t) <= DepthLimit(|RElems(t)|))
    && RHeight(t) <= Max(MAX_DEPTH + 1, DepthLimit(|RElems(t)|))
  }

  /** The new elements of one vertex: the old ones and `news`, none of which was there. */
  ghost predicate Gains(t: Option<Tree>, t': Option<Tree>, news: seq<nat>) {
    && Ascending(RElems(t'))
    && |RElems(t')| == |RElems(t)| + |news|
    && (forall x :: x in RElems(t') <==> x in RElems(t) || x in news)
    && (forall x :: x in news ==> x !in RElems(t))
  }

  lemma {:induction false} EdgeTotalUpdate(trees: seq<Option<Tree>>, v: nat, t: Option<Tree>)
    requires v < |trees|
    ensures EdgeTotal(trees[v := t]) + |RElems(trees[v])| == EdgeTotal(trees) + |RElems(t)|
  {
    hide RElems;
    var n := |trees| - 1;
    if v == n {
      assert trees[v := t][..n] == trees[..n];
    } else {
      EdgeTotalUpdate(trees[..n], v, t);
      assert trees[v := t][..n] == trees[..n][v := t];
    }
  }

  lemma InRangeUpdate(trees: seq<Option<Tree>>, v: nat, t: Option<Tree>, news: seq<nat>)
    requires InRange(trees) && v < |trees| && Gains(trees[v], t, news)
    requires forall x :: x in news ==> x < |trees|
    ensures InRange(trees[v := t])
  {
    hide RElems;
  }

  lemma RecordedUpdate(records: seq<EdgeRecord>, trees: seq<Option<Tree>>, v: U32, t: Option<Tree>, news: seq<U32>)
    requires Recorded(records, trees) && v < |trees| && Gains(trees[v], t, news)
    ensures Recorded(records + EdgesOf(v, news), trees[v := t])
  {
    hide RElems;
    var edges := EdgesOf(v, news);
    forall r: EdgeRecord
      ensures r in records + edges <==> HasEdge(trees[v := t], r.src, r.dst)
    {
      if r in edges {
        var i :| 0 <= i < |edges| && edges[i] == r;
        assert news[i] == r.dst;
      }
      if r.src == v && r.dst in news {
        var i :| 0 <= i < |news| && news[i] == r.dst;
        assert edges[i] == r;
      }
    }
  }

  lemma BoundedUpdate(trees: seq<Option<Tree>>, skewed: set<nat>, v: nat, t: Option<Tree>, skewed': set<nat>)
    requires Bounded(trees, skewed) && v < |trees| && VertexBounded(t, v in skewed')
    requires forall w :: w != v ==> (w in skewed' <==> w in skewed)
    ensures Bounded(trees[v := t], skewed')
  {
    hide VertexBounded;
  }

  /** An insertion keeps the bound of its vertex unless its rebuild failed. */
  lemma BoundKept(t: Option<Tree>, t': Tree, skewed: bool, failed: bool)
    requires VertexBounded(t, skewed) && HeightKept(t, t', failed) && |Elems(t')| >= |RElems(t)|
    ensures VertexBounded(Some(t'), skewed || failed)
  {
    hide DepthLimit, Elems, Height;
    LimitMonotone(|RElems(t)|, |Elems(t')|);
  }

  /** A balanced build is within every bound. */
  lemma BuiltBounded(m: Mem, t: Tree, vals: seq<nat>)
    requires Built(m, t, vals) && vals != []
    ensures VertexBounded(Some(t), false)
  {
    hide DepthLimit, BuiltHeight, Fits;
    BuiltFits(Height(t), |vals|);
    FitsUp(Height(t), |vals|, Max(|vals|, 2));
    LimitIff(Height(t), |vals|);
  }

  lemma GainsNone(t: Option<Tree>)
    requires Ascending(RElems(t))
    ensures Gains(t, t, [])
  {
  }

  /** One more insertion at the end of a chain. */
  lemma GainsOne(t: Option<Tree>, cur: Option<Tree>, t': Tree, news: seq<nat>, val: nat)
    requires Gains(t, cur, news) && Ascending(RElems(cur)) && val !in RElems(cur)
    requires Elems(t') == Ins(RElems(cur), val)
    ensures Gains(t, Some(t'), news + [val])
  {
    var s := RElems(cur);
    assert RElems(Some(t')) == Ins(s, val);
    hide RElems, Elems, Ins;
    InsAscending(s, val);
    forall x ensures x in Ins(s, val) <==> x == val || x in s { InsMembers(s, val, x); }
  }

  // -- Trees under construction -------------------------------------------------------

  /**
   * A tree built off to the side of the published `t0`: what it gained, what it superseded, what it
   * allocated, and what it lost on the way.
   */
  ghost predicate Chain(m0: Mem, u0: set<Slot>, m: Mem, u: set<Slot>, t0: Option<Tree>, root: Option<Slot>, cur: Option<Tree>,
                        news: seq<nat>, gone: set<Slot>, added: set<Slot>, lost: set<Slot>, skewed: bool)
  {
    && Grown(m0, u0, m, u, added)
    && RootAt(m, root, cur) && RSlots(cur) <= u && RSlots(t0) <= u0
    && Accounted(RSlots(t0), added, RSlots(cur), gone, lost)
    && Gains(t0, cur, news) && VertexBounded(cur, skewed)
  }

  lemma ChainStart(m: Mem, u: set<Slot>, root: Option<Slot>, t: Option<Tree>, skewed: bool)
    requires RootAt(m, root, t) && RSlots(t) <= u && VertexBounded(t, skewed)
    ensures Chain(m, u, m, u, t, root, t, [], {}, {}, {}, skewed)
  {
    hide VertexBounded;
    RootAscending(m, root, t);
    GainsNone(t);
  }

  lemma RootAscending(m: Mem, root: Option<Slot>, t: Option<Tree>)
    requires RootAt(m, root, t)
    ensures Ascending(RElems(t))
  {
    if t.Some? {
      OrderedElems(t.value);
    }
  }

  /** One insertion extends the chain. */
  lemma ChainStep(m0: Mem, u0: set<Slot>, m1: Mem, u1: set<Slot>, t0: Option<Tree>, root: Option<Slot>, cur: Option<Tree>,
                  news: seq<nat>, gone: set<Slot>, added: set<Slot>, lost: set<Slot>, skewed: bool,
                  m2: Mem, u2: set<Slot>, t': Tree, val: nat, g2: set<Slot>, f2: set<Slot>, l2: set<Slot>, failed: bool)
    requires Chain(m0, u0, m1, u1, t0, root, cur, news, gone, added, lost, skewed)
    requires Grown(m1, u1, m2, u2, f2) && InsertDone(m2, cur, t', val, g2, f2, l2) && HeightKept(cur, t', failed)
    ensures Chain(m0, u0, m2, u2, t0, Some(t'.slot), Some(t'), news + [val], gone + g2, added + f2, lost + l2, skewed || failed)
    ensures multiset(gone + g2) == multiset(gone) + multiset(g2)
  {
    hide Accounted, Gains, VertexBounded, HeightKept, RElems, Elems, Slots, Grown, Stored, Sound, Ins;
    GainsOne(t0, cur, t', news, val);
    InsLonger(RElems(cur), val, t');
    BoundKept(cur, t', skewed, failed);
    ChainSlots(m0, u0, m1, u1, m2, u2, RSlots(t0), added, RSlots(cur), gone, lost, f2, Slots(t'), g2, l2);
  }

  lemma InsLonger(s: seq<nat>, val: nat, t': Tree)
    requires Ascending(s) && Elems(t') == Ins(s, val)
    ensures |Elems(t')| == |s| + 1
  {
  }

  lemma ChainSlots(m0: Mem, u0: set<Slot>, m1: Mem, u1: set<Slot>, m2: Mem, u2: set<Slot>, before: set<Slot>, added: set<Slot>,
                   mid: set<Slot>, gone: set<Slot>, lost: set<Slot>, f2: set<Slot>, after: set<Slot>, g2: set<Slot>, l2: set<Slot>)
    requires Grown(m0, u0, m1, u1, added) && Grown(m1, u1, m2, u2, f2) && before <= u0 && mid <= u1
    requires Accounted(before, added, mid, gone, lost) && Accounted(mid, f2, after, g2, l2)
    ensures Grown(m0, u0, m2, u2, added + f2) && after <= u2
    ensures Accounted(before, added + f2, after, gone + g2, lost + l2)
    ensures multiset(gone + g2) == multiset(gone) + multiset(g2)
  {
    GrownTrans(m0, u0, m1, u1, added, m2, u2, f2);
    AccountedTrans(before, added, mid, gone, lost, f2, after, g2, l2);
  }

  /** An operation that changed nothing of the tree, and may have allocated, leaves the chain standing. */
  lemma ChainKept(m0: Mem, u0: set<Slot>, m1: Mem, u1: set<Slot>, t0: Option<Tree>, root: Option<Slot>, cur: Option<Tree>,
                  news: seq<nat>, gone: set<Slot>, added: set<Slot>, lost: set<Slot>, skewed: bool, m2: Mem, u2: set<Slot>, f2: set<Slot>)
    requires Chain(m0, u0, m1, u1, t0, root, cur, news, gone, added, lost, skewed) && Grown(m1, u1, m2, u2, f2)
    ensures Chain(m0, u0, m2, u2, t0, root, cur, news, gone, added + f2, lost + f2, skewed)
  {
    hide Gains, VertexBounded, RootAt, RSlots;
    GrownRoot(m1, u1, m2, u2, f2, root, cur);
    GrownTrans(m0, u0, m1, u1, added, m2, u2, f2);
  }

  lemma ChainPublish(m0: Mem, u0: set<Slot>, m: Mem, u: set<Slot>, root: Option<Slot>, cur: Option<Tree>, news: seq<nat>,
                     gone: set<Slot>, added: set<Slot>, lost: set<Slot>, skewed: bool, roots: seq<Option<Slot>>,
                     trees: seq<Option<Tree>>, logged: multiset<Slot>, leaked: set<Slot>, v: nat)
    requires v < |trees| && State(m0, u0, roots, trees, logged, leaked)
    requires Chain(m0, u0, m, u, trees[v], root, cur, news, gone, added, lost, skewed)
    ensures State(m, u, roots[v := root], trees[v := cur], logged + multiset(gone), leaked + lost)
  {
    hide Gains, VertexBounded, RootAt, RSlots, Accounted, Grown, Owned;
    Publish(m0, u0, m, u, added, roots, trees, logged, leaked, v, root, cur, gone, lost);
  }

  lemma MeaningUpdate(n: nat, trees: seq<Option<Tree>>, skewed: set<nat>, numEdges: nat, pendingEdges: nat, committed: nat,
                      touched: seq<nat>, v: nat, t: Option<Tree>, news: seq<nat>, skewed': set<nat>, touched': seq<nat>)
    requires Meaning(n, trees, skewed, numEdges, pendingEdges, committed, touched) && v < n && touched' != []
    requires Gains(trees[v], t, news) && VertexBounded(t, v in skewed')
    requires forall x :: x in news ==> x < n
    requires forall w :: w != v ==> (w in skewed' <==> w in skewed)
    ensures Meaning(n, trees[v := t], skewed', numEdges, pendingEdges + |news|, committed, touched')
  {
    hide InRange, Bounded, VertexBounded, RElems;
    InRangeUpdate(trees, v, t, news);
    BoundedUpdate(trees, skewed, v, t, skewed');
    EdgeTotalUpdate(trees, v, t);
  }

  /** What one insertion of a chain takes of the stock, and when it cannot be refused. */
  ghost predicate Extended(s: Stock, s': Stock, t: Option<Tree>, val: nat, n: nat) {
    && Leaner(s, s', CHUNK_SLOT * n)
    && (s.idle && ChunkBytes(s) < CHUNK_SLOT ==> s' == s)
    && (FirstFits(s, t, val) ==> n > 0)
  }

  /** A destination that is not there yet, and finds room. */
  ghost predicate FirstFits(s: Stock, t: Option<Tree>, val: nat) {
    val !in RElems(t) && !Deep(t, val) && RoomToInsert(s, t, val)
  }

  /** What a chain of `n` insertions took; one whose first destination `fits` has inserted once it began. */
  ghost predicate ChainTook(s: Stock, s': Stock, started: bool, fits: bool, n: nat) {
    && Leaner(s, s', CHUNK_SLOT * n)
    && (s.idle && ChunkBytes(s) < CHUNK_SLOT ==> s' == s)
    && if started then fits ==> n > 0 else s' == s && n == 0
  }

  lemma TookExtended(s: Stock, s': Stock, res: InsertResult, t: Option<Tree>, val: nat, failed: bool)
    requires InsertTook(s, s', res, t, val, failed) && Leaner(s, s', 0) && (res.Duplicate? ==> val in RElems(t))
    ensures !res.Overran? ==> Extended(s, s', t, val, if res.Inserted? then 1 else 0)
    ensures Leaner(s, s', 0) && (s.idle && ChunkBytes(s) < CHUNK_SLOT ==> s' == s)
  {
    hide RoomToInsert, RElems, Overdeep, LeafIsFull, RebuildDecided, Paid;
  }

  lemma TookAll(s: Stock, s': Stock, started: bool, fits: bool, n: nat)
    requires ChainTook(s, s', started, fits, n)
    ensures Leaner(s, s', CHUNK_SLOT * n) && (s.idle && ChunkBytes(s) < CHUNK_SLOT ==> s' == s)
    ensures started && fits ==> n > 0
  {
  }

  lemma NothingTook(s: Stock, fits: bool)
    ensures ChainTook(s, s, false, fits, 0)
  {
  }

  lemma ExtendedTook(s0: Stock, s1: Stock, s2: Stock, started: bool, t: Option<Tree>, val: nat, t0: Option<Tree>, val0: nat,
                     n: nat, before: nat)
    requires ChainTook(s0, s1, started, FirstFits(s0, t0, val0), before) && Extended(s1, s2, t, val, n)
    requires !started ==> t == t0 && val == val0
    ensures ChainTook(s0, s2, true, FirstFits(s0, t0, val0), before + n)
  {
    hide FirstFits;
  }

  /** What a chain has logged, taken of the stock, and lost. */
  ghost predicate Tallied(s0: Stock, s: Stock, logged: multiset<Slot>, contents: multiset<Slot>, gone: set<Slot>, lost: set<Slot>,
                          started: bool, fits: bool, n: nat, spoilt: bool) {
    contents == logged + multiset(gone) && ChainTook(s0, s, started, fits, n) && (!spoilt ==> lost == {})
  }

  lemma TallyNone(s: Stock, logged: multiset<Slot>, fits: bool)
    ensures Tallied(s, s, logged, logged, {}, {}, false, fits, 0, false)
  {
    NothingTook(s, fits);
  }

  lemma TallyNext(s0: Stock, s1: Stock, s2: Stock, logged: multiset<Slot>, contents: multiset<Slot>, contents': multiset<Slot>,
                  gone: set<Slot>, g: set<Slot>, lost: set<Slot>, l: set<Slot>, started: bool, t: Option<Tree>, val: nat,
                  t0: Option<Tree>, val0: nat, n: nat, k: nat, spoilt: bool, spoilt': bool)
    requires Tallied(s0, s1, logged, contents, gone, lost, started, FirstFits(s0, t0, val0), n, spoilt)
    requires contents' == contents + multiset(g) && multiset(gone + g) == multiset(gone) + multiset(g)
    requires Extended(s1, s2, t, val, k) && (!started ==> t == t0 && val == val0)
    requires !spoilt' ==> !spoilt && l == {}
    ensures Tallied(s0, s2, logged, contents', gone + g, lost + l, true, FirstFits(s0, t0, val0), n + k, spoilt')
  {
    hide FirstFits, Extended, ChainTook;
    BagAssoc(logged, multiset(gone), multiset(g));
    ExtendedTook(s0, s1, s2, started, t, val, t0, val0, k, n);
  }

  /** While nothing is new nothing is logged; then the first entry is the published leaf that was replaced. */
  ghost predicate Started(c0: seq<nat>, i0: seq<nat>, chunks: seq<nat>, interiors: seq<nat>, fresh_: bool, same: bool, t0: Option<Tree>) {
    if fresh_ then chunks == c0 && interiors == i0 && same else LiveFirst(c0, chunks, t0)
  }

  lemma StartNone(c0: seq<nat>, i0: seq<nat>, t0: Option<Tree>)
    ensures Started(c0, i0, c0, i0, true, true, t0)
  {
  }

  lemma StartedNext(c0: seq<nat>, i0: seq<nat>, chunks: seq<nat>, interiors: seq<nat>, same: bool, t0: Option<Tree>, t: Option<Tree>,
                    chunks': seq<nat>, interiors': seq<nat>, same': bool, fresh_: bool, isNew: bool)
    requires Started(c0, i0, chunks, interiors, fresh_, same, t0) && chunks <= chunks' && (same ==> t == t0)
    requires if isNew then LiveFirst(chunks, chunks', t) else chunks' == chunks && interiors' == interiors && same' == same
    ensures Started(c0, i0, chunks', interiors', fresh_ && !isNew, same', t0)
  {
    hide LiveFirst;
    if !fresh_ {
      LiveLonger(c0, chunks, chunks', t0);
    }
  }

  lemma StartedMeans(c0: seq<nat>, i0: seq<nat>, chunks: seq<nat>, interiors: seq<nat>, fresh_: bool, same: bool, t0: Option<Tree>)
    requires Started(c0, i0, chunks, interiors, fresh_, same, t0)
    ensures if fresh_ then chunks == c0 && interiors == i0 else LiveFirst(c0, chunks, t0)
    ensures fresh_ ==> same
  {
    hide LiveFirst;
  }

  lemma TallyMeans(s0: Stock, s: Stock, logged: multiset<Slot>, contents: multiset<Slot>, gone: set<Slot>, lost: set<Slot>,
                   started: bool, fits: bool, n: nat, spoilt: bool)
    requires Tallied(s0, s, logged, contents, gone, lost, started, fits, n, spoilt)
    ensures contents == logged + multiset(gone) && ChainTook(s0, s, started, fits, n) && (!spoilt ==> lost == {})
  {
    hide ChainTook;
  }

  // -- One insertion under a known stock ------------------------------------------------

  /** `val` is new and least, its copy finds room, and a rebuild, if one is due, then finds no chunk. */
  ghost predicate Metered(s: Stock, t: Option<Tree>, val: nat) {
    && t.Some? && Sound(t.value) && Under(val, t.value) && LeftDepth(t.value) <= MAX_DEPTH && RoomToInsert(s, t, val)
    && (Overdeep(t, val) ==> ChunkBytes(s) < CHUNK_SLOT * (InsertCost(t, val).0 + 1) && RebuildSteps(t.value, val) <= MAX_DEPTH)
  }

  // -- Left turns and the traversal stack -------------------------------------------------

  ghost function RSteps(t: Option<Tree>): nat {
    if t.None? then 0 else LeftSteps(t.value)
  }

  /** However its next `n` insertions go, none overruns a traversal. */
  ghost predicate Calm(t: Option<Tree>, n: nat) {
    DepthLimit(|RElems(t)| + n) + n <= MAX_DEPTH && RSteps(t) + n <= MAX_DEPTH
  }

  /** How an insertion may add left turns. */
  ghost predicate StepUp(t: Option<Tree>, t': Option<Tree>) {
    |RElems(t')| == |RElems(t)| + 1 && RSteps(t') <= Max(RSteps(t) + 1, DepthLimit(|RElems(t')|))
  }

  lemma CalmHolds(t: Option<Tree>, n: nat, val: nat)
    requires Calm(t, n) && n > 0
    ensures !Overruns(t, val)
  {
    hide DepthLimit, RElems, LeftSteps, RebuildSteps, CopiedSteps;
    if t.Some? {
      RebuildBelow(t.value, val);
    }
  }

  lemma TooTall(t: Option<Tree>, n: nat)
    requires RSteps(t) > MAX_DEPTH
    ensures !Calm(t, n)
  {
    hide RSteps, DepthLimit, RElems;
  }

  lemma CalmNext(t: Option<Tree>, t': Option<Tree>, n: nat)
    requires Calm(t, n + 1) && (t' == t || StepUp(t, t'))
    ensures Calm(t', n)
  {
    hide DepthLimit, RElems, RSteps;
    LimitMonotone(|RElems(t)| + n, |RElems(t)| + n + 1);
    LimitMonotone(|RElems(t')|, |RElems(t)| + n + 1);
  }

  lemma CalmStep(t: Option<Tree>, t': Option<Tree>, n: nat, val: nat)
    requires Calm(t, n) && n > 0 && (t' == t || StepUp(t, t'))
    ensures !Overruns(t, val) && Calm(t', n - 1)
  {
    hide Calm, Overruns, StepUp;
    CalmHolds(t, n, val);
    CalmNext(t, t', n - 1);
  }

  lemma StepsUp(t: Option<Tree>, t': Tree, val: nat, failed: bool, chunks: int, interiors: int)
    requires t.Some? ==> Ordered(t.value) && Outgrowth(t.value, t', val, failed, chunks, interiors)
    requires t.None? ==> t'.Leaf?
    requires Ordered(t') && |Elems(t')| == |RElems(t)| + 1
    ensures StepUp(t, Some(t'))
  {
    hide DepthLimit, TurnsTo, PathLen, LeafIsFull, Overdeep, LeftDepth, LeftCount;
    if t.Some? {
      TurnsBelow(t.value, val);
      OrderedElems(t.value);
    }
  }

  /** The leftmost leaf took the element, for the exact cost of the copy, which logged one chunk and the path. */
  ghost predicate Pushed(t: Option<Tree>, t': Option<Tree>, val: nat, s: Stock, s': Stock, chunks: int, interiors: int) {
    && t.Some? && t'.Some? && GrownLeft(t.value, t'.value, val)
    && LeftSteps(t'.value) == (if LeftCount(t.value) == CHUNK_CAP then Max(LeftSteps(t.value), LeftDepth(t.value) + 1) else LeftSteps(t.value))
    && Paid(s, s', LeafCost(LeftCount(t.value) == CHUNK_CAP), LeafLevels(LeftCount(t.value) == CHUNK_CAP) + LeftDepth(t.value))
    && chunks == 1 && interiors == LeftDepth(t.value)
  }

  lemma MeteredPushed(s: Stock, s': Stock, res: InsertResult, t: Option<Tree>, t': Tree, val: nat, failed: bool, chunks: int, interiors: int)
    requires Metered(s, t, val) && InsertTook(s, s', res, t, val, failed) && (res.Duplicate? ==> val in RElems(t))
    requires res.Overran? ==> Overruns(t, val)
    requires res.Inserted? ==> Outgrowth(t.value, t', val, failed, chunks, interiors)
    ensures res.Inserted? && Pushed(t, Some(t'), val, s, s', chunks, interiors)
  {
    UnderLeft(t.value, val);
    hide Overdeep, Under, Sound, PathLen, EndCount, TurnsTo, LeftDepth, LeftCount, LeftSteps, RebuildCost, RebuildSteps, Paid, DepthLimit, Elems;
    MeteredRoom(s, t, val);
    if res.Inserted? {
      MeteredPlain(s, s', t, val, failed, res);
    }
  }

  lemma MeteredRoom(s: Stock, t: Option<Tree>, val: nat)
    requires RoomToInsert(s, t, val)
    ensures s.idle && s.ample
  {
  }

  lemma MeteredPlain(s: Stock, s': Stock, t: Option<Tree>, val: nat, failed: bool, res: InsertResult)
    requires Metered(s, t, val) && InsertTook(s, s', res, t, val, failed) && res.Inserted?
    ensures Plain(t, val, failed) && Paid(s, s', InsertCost(t, val).0, InsertCost(t, val).1)
  {
    hide Overdeep, Under, Sound, PathLen, EndCount, LeftDepth, RebuildCost, Paid, DepthLimit, InsertCost, RoomToRebuild;
    MeteredRoom(s, t, val);
  }

  lemma MeteredNew(s: Stock, t: Option<Tree>, val: nat)
    requires Metered(s, t, val)
    ensures t.Some? && val !in RElems(t) && LeftDepth(t.value) <= MAX_DEPTH
  {
    UnderLeft(t.value, val);
    hide Overdeep, RoomToInsert;
  }

  lemma PushedLog(t: Option<Tree>, t': Option<Tree>, val: nat, s: Stock, s': Stock, chunks: int, interiors: int)
    requires Pushed(t, t', val, s, s', chunks, interiors)
    ensures t.Some? && t'.Some? && chunks == 1 && interiors == LeftDepth(t.value)
  {
  }

  lemma AddedSteps(m0: Mem, t: Option<Tree>, t': Tree, val: nat, gone: set<Slot>, added: set<Slot>, lost: set<Slot>, failed: bool,
                   m: Mem, root: Option<Slot>, chunks: int, interiors: int)
    requires RootAt(m0, root, t) && InsertDone(m, t, t', val, gone, added, lost)
    requires t.Some? ==> Outgrowth(t.value, t', val, failed, chunks, interiors)
    ensures StepUp(t, Some(t'))
  {
    hide Outgrowth, StepUp, Accounted, Elems, Stored, Apart, Ascending;
    InsLonger(RElems(t), val, t');
    if t.None? {
      OneLeaf(t');
    }
    StepsUp(t, t', val, failed, chunks, interiors);
  }

  lemma OneLeaf(t: Tree)
    requires Ordered(t) && |Elems(t)| == 1
    ensures t.Leaf?
  {
    OrderedElems(t);
    if t.Branch? {
      OrderedElems(t.left);
      OrderedElems(t.right);
    }
  }

  lemma RootStored(m: Mem, root: Option<Slot>, t: Option<Tree>)
    requires RootAt(m, root, t) && t.Some?
    ensures Stored(m, t.value)
  {
  }

  /** An insertion of a new element that has room for its copy and whose rebuild overruns its traversal. */
  ghost predicate Doomed(s: Stock, t: Option<Tree>, val: nat) {
    Overruns(t, val) && !Deep(t, val) && val !in RElems(t) && RoomToInsert(s, t, val)
  }

  lemma DoomedFacts(s: Stock, t: Option<Tree>, val: nat)
    requires Doomed(s, t, val)
    ensures Overruns(t, val) && !Deep(t, val) && val !in RElems(t) && RoomToInsert(s, t, val)
  {
    hide Overruns, RoomToInsert, RElems;
  }

  lemma NewValue(m: Mem, t: Option<Tree>, t': Tree, val: nat, gone: set<Slot>, added: set<Slot>, lost: set<Slot>)
    requires InsertDone(m, t, t', val, gone, added, lost)
    ensures val !in RElems(t)
  {
    hide Accounted, RElems, Stored, Sound;
  }

  /** With room for the copy, a new element whose rebuild overruns its traversal ends in that panic. */
  lemma DoomedOverran(s: Stock, s': Stock, res: InsertResult, t: Option<Tree>, val: nat, failed: bool)
    requires InsertTook(s, s', res, t, val, failed) && Overruns(t, val) && !Deep(t, val) && val !in RElems(t)
    requires (res.Duplicate? ==> val in RElems(t)) && (res.Inserted? ==> !Overruns(t, val))
    requires RoomToInsert(s, t, val)
    ensures res.Overran?
  {
    hide RebuildDecided, Paid, RoomToInsert, RElems, Overruns;
  }

  /** With no chunk to be had an insertion of a new element is refused and takes nothing. */
  lemma NoneTaken(s: Stock, s': Stock, res: InsertResult, t: Option<Tree>, val: nat, failed: bool)
    requires InsertTook(s, s', res, t, val, failed) && s.idle && ChunkBytes(s) < CHUNK_SLOT
    ensures !Grew(res) && s' == s
  {
    hide Overdeep, RebuildDecided, Paid, RoomToInsert;
    assert InsertCost(t, val).0 > 0;
  }

  // -- The published snapshot -------------------------------------------------------

  datatype Snapshot = Snapshot(epoch: nat, numEdges: nat, top: seq<TableUpper>)

  /** The table reads the live root of every vertex whose leaf this guard has not touched. */
  ghost predicate TableMatches(top: seq<TableUpper>, roots: seq<Option<Slot>>, touched: seq<nat>) {
    && Shape(top) && |roots| <= SPAN * |top|
    && (forall l :: l in touched ==> l / UPPER < |top|)
    && forall v: nat :: v < |roots| && v / LEAF !in touched ==> Get(top, v) == roots[v]
  }

  lemma TouchedStore(top: seq<TableUpper>, roots: seq<Option<Slot>>, touched: seq<nat>, touched': seq<nat>,
                     v: nat, root: Option<Slot>)
    requires TableMatches(top, roots, touched) && v < |roots|
    requires forall l :: l in touched' <==> l in touched || l == v / LEAF
    ensures TableMatches(top, roots[v := root], touched')
  {
    hide Shape;
    assert v / LEAF / UPPER < |top|;
  }

  /** What the trees and the counters say together. */
  ghost predicate Meaning(n: nat, trees: seq<Option<Tree>>, skewed: set<nat>, numEdges: nat, pendingEdges: nat,
                          committed: nat, touched: seq<nat>)
  {
    && |trees| == n <= MAX_VERTICES
    && InRange(trees) && Bounded(trees, skewed)
    && numEdges + pendingEdges == EdgeTotal(trees)
    && committed == numEdges && (touched == [] ==> pendingEdges == 0)
  }

  /** The search path for `val` is longer than a descent records. */
  ghost predicate Deep(t: Option<Tree>, val: nat) {
    t.Some? && PathLen(t.value, val) > MAX_DEPTH
  }

  /** A vector truncated to at most `mark` entries. */
  function Cut(s: seq<nat>, mark: nat): seq<nat> {
    if mark < |s| then s[..mark] else s
  }

  /** The first chunk slot logged since `before` belongs to the tree `t`. */
  ghost predicate LiveFirst(before: seq<nat>, after: seq<nat>, t: Option<Tree>) {
    before <= after && (t.Some? ==> |before| < |after| && ChunkSlot(after[|before|]) in Slots(t.value))
  }

  lemma LiveLonger(before: seq<nat>, mid: seq<nat>, after: seq<nat>, t: Option<Tree>)
    requires LiveFirst(before, mid, t) && mid <= after
    ensures LiveFirst(before, after, t)
  {
  }

  // -- The graph ----------------------------------------------------------------------

  /** `Panicked`: a traversal overran its stack, and the call unwinds to the drop of the guard. */
  datatype EdgeResult = Done(isNew: bool) | OutOfRange(src: nat, dst: nat) | Full | WalAppend | Panicked

  datatype BatchResult = Count(n: nat) | BatchOutOfRange(src: nat, dst: nat) | BatchFull | BatchWalAppend | BatchPanicked

  datatype GuardResult = Guarded | Busy | Poisoned

  const RETIRE_LOG_CAP: nat := 4096
  const HEADROOM: nat := 128
  const TOUCHED_LEAVES_DEDUP_START: nat := 1024

  class Graph {
    const numVertices: nat
    var arena: Arena
    const log: RetireLog
    var wal: WalWriter?
    var roots: seq<Option<Slot>>
    var numEdges: nat
    var epoch: nat
    var latest: Snapshot
    var poisoned: bool
    /** The guard: whether one is open, and what it buffers. */
    var guarded: bool
    var retireStamp: nat
    var pendingEdges: nat
    var touched: seq<nat>
    var dedupLimit: nat
    var walFailed: bool
    /** The tree each root denotes, slots nobody owns, and vertices where a rebuild found no room. */
    ghost var trees: seq<Option<Tree>>
    ghost var leaked: set<Slot>
    ghost var skewed: set<nat>

    ghost predicate Valid()
      reads this, arena, log, wal
    {
      Held(log.Contents()) && Leafy()
    }

    /** Whatever superseded an interior superseded a leaf. */
    ghost predicate Leafy()
      reads log
    {
      log.interiors != [] ==> log.chunks != []
    }

    /** `Valid`, were `logged` the contents of the retire log. */
    ghost predicate Held(logged: multiset<Slot>)
      reads this, arena, wal
    {
      && arena.Valid()
      && State(arena.mem, arena.inUse, roots, trees, logged, leaked)
      && Stamps()
      && Consistent()
    }

    /** A guard never holds a poisoned graph, and every stamp is below the next one to come. */
    ghost predicate Stamps()
      reads this, arena
    {
      && (guarded ==> !poisoned)
      && (poisoned || arena.lastStamp <= (if guarded then retireStamp else epoch) <= epoch + 1)
    }

    /** A tree built beside the published one: what publishing it, or abandoning it, would leave. */
    ghost predicate Ready(src: nat, root: Option<Slot>, news: seq<nat>, t: Option<Tree>, added: set<Slot>, lost: set<Slot>,
                          skew: bool, kept: multiset<Slot>, logged: multiset<Slot>)
      reads this, arena, wal
    {
      && arena.Valid() && src < |roots| == |trees| && (forall x :: x in news ==> x < |trees|)
      && State(arena.mem, arena.inUse, roots, trees, kept, leaked + added)
      && State(arena.mem, arena.inUse, roots[src := root], trees[src := t], logged, leaked + lost)
      && Gains(trees[src], t, news) && VertexBounded(t, skew)
      && Consistent() && Stamps()
      && (news == [] ==> logged == kept)
    }

    /** The trees, the counters, the log and the latest snapshot agree. */
    ghost predicate Consistent()
      reads this, wal
    {
      && |roots| == numVertices
      && Meaning(numVertices, trees, skewed, numEdges, pendingEdges, latest.numEdges, touched)
      && TableMatches(latest.top, roots, touched)
      && (wal != null ==> wal.Valid() && Recorded(wal.records, trees))
    }

    /** Every record in the attached log. */
    ghost function Records(): seq<EdgeRecord>
      reads this, wal
    {
      if wal == null then [] else wal.records
    }

    /** Bytes staged for the log. */
    ghost function Staged(): nat
      reads this`wal, wal
    {
      if wal == null then 0 else |wal.buf|
    }

    /** The log may have had to spill to take `n` records more than `staged` bytes. */
    ghost predicate SpillNeeded(staged: nat, n: nat)
      reads this`wal
    {
      wal != null && staged + RECORD_LEN * n > BUF_CAPACITY
    }

    /** Everything but the retire log is in order: what it should hold is `logged`, whatever a panic left in it. */
    ghost predicate Whole()
      reads this, arena, wal
    {
      exists logged :: Held(logged)
    }

    /** Some slot of a published tree is logged, as if nothing reached it. */
    ghost predicate Harmed()
      reads this`trees, log
    {
      exists s :: s in log.Contents() && s in LiveBag(trees)
    }

    /** Which slots the current guard may reuse without asking the pins. */
    twostate predicate SameStarts()
      reads this, arena
    {
      arena == old(arena) && arena.youngChunkStart == old(arena.youngChunkStart) && arena.youngInteriorStart == old(arena.youngInteriorStart)
    }

    /** The graph keeps its parts. */
    twostate predicate SameParts()
      reads this
    {
      arena == old(arena) && wal == old(wal)
    }

    /** Nothing a reader can see has changed, and no guard field but the log and the leaks. */
    twostate predicate Unpublished()
      reads this, wal
    {
      && SameParts() && (wal != null ==> Records() == old(Records()))
      && roots == old(roots) && trees == old(trees) && numEdges == old(numEdges) && latest == old(latest)
      && epoch == old(epoch) && poisoned == old(poisoned) && guarded == old(guarded)
      && retireStamp == old(retireStamp) && pendingEdges == old(pendingEdges) && skewed == old(skewed)
      && touched == old(touched) && dedupLimit == old(dedupLimit)
    }

    /** One vertex's new tree is published: its old elements and `news`, each of them logged once. */
    twostate predicate Inserted(src: U32, new news: seq<U32>)
      requires src < |old(trees)| && src < |trees|
      reads this, wal
    {
      && SameParts()
      && trees == old(trees)[src := trees[src]] && Gains(old(trees)[src], trees[src], news)
      && src < |roots| == |old(roots)| && roots == old(roots)[src := roots[src]]
      && numEdges == old(numEdges) && pendingEdges == old(pendingEdges) + |news|
      && latest == old(latest) && epoch == old(epoch) && poisoned == old(poisoned)
      && guarded == old(guarded) && retireStamp == old(retireStamp)
      && (wal != null ==> Records() == old(Records()) + EdgesOf(src, news))
    }

    constructor (numVertices: nat, bytes: nat, epoch: nat, readers: nat -> Answer)
      requires numVertices <= MAX_VERTICES && INTERIOR_SLOT <= bytes <= MAX_CAPACITY
      ensures arena.Blank() && arena.capacity == bytes - bytes % INTERIOR_SLOT && arena.readers == readers
      ensures log.chunks == [] && log.interiors == []
      ensures Valid() && fresh(arena) && fresh(log) && wal == null && !guarded && !poisoned
      ensures this.numVertices == numVertices && this.epoch == epoch
      ensures (forall v :: 0 <= v < |trees| ==> trees[v] == None) && Current()
    {
      hide Arena.Valid, WalWriter.Valid, State, Meaning, TableMatches, Shape, Get;
      var top := Empty(numVertices);
      this.numVertices := numVertices;
      arena := new Arena(bytes, readers);
      log := new RetireLog();
      wal := null;
      roots := seq(numVertices, _ => None);
      numEdges, pendingEdges, this.epoch, retireStamp := 0, 0, epoch, epoch;
      latest := Snapshot(epoch, 0, top);
      poisoned, guarded, walFailed := false, false, false;
      touched, dedupLimit := [], TOUCHED_LEAVES_DEDUP_START;
      trees := seq(numVertices, _ => None);
      leaked, skewed := {}, {};
      new;
      BagEmpty([], []);
      EmptyGraph(arena.mem, roots, trees, log.Contents(), top);
    }

    /** Take the writer guard. Other subsystems may have moved the shared clock since the last commit. */
    method OpenGuard(ticks: nat) returns (r: GuardResult)
      requires Valid()
      modifies this, arena
      ensures Valid() && SameParts()
      ensures r == (if old(poisoned) then Poisoned else if old(guarded) then Busy else Guarded)
      ensures r != Guarded ==> unchanged(this) && unchanged(arena)
      ensures r == Guarded ==> guarded && !walFailed && roots == old(roots) && trees == old(trees)
      ensures r == Guarded ==> dedupLimit == TOUCHED_LEAVES_DEDUP_START
      ensures r == Guarded ==> retireStamp == epoch + 1 == old(epoch) + ticks + 1
      ensures r == Guarded ==> arena.youngChunkStart == arena.chunks && arena.youngInteriorStart == arena.interiors
      ensures old(epoch) <= epoch && poisoned == old(poisoned)
      ensures arena.chunks == old(arena.chunks) && arena.interiors == old(arena.interiors) && arena.Supply() == old(arena.Supply())
    {
      hide Arena.Valid, WalWriter.Valid, State, TableMatches, Meaning, Recorded, RetireLog.Contents, Arena.Supply;
      if poisoned {
        return Poisoned;
      }
      if guarded {
        return Busy;
      }
      epoch := epoch + ticks;
      arena.BeginGuard();
      retireStamp := epoch + 1;
      guarded, walFailed := true, false;
      dedupLimit := TOUCHED_LEAVES_DEDUP_START;
      return Guarded;
    }

    /** The buffer of touched leaves is below its limit, which is at most twice the leaves that it names. */
    ghost predicate Lean()
      reads this`touched, this`dedupLimit
    {
      |touched| < dedupLimit <= Max(TOUCHED_LEAVES_DEDUP_START, 2 * |SetOf(touched)|)
    }

    /** Record the root-table leaf of a stored root, deduplicating at a growing limit. */
    method NoteRootStore(src: nat)
      modifies this`touched, this`dedupLimit
      ensures forall l :: l in touched <==> l in old(touched) || l == src / LEAF
      ensures touched != [] && (old(Lean()) ==> Lean())
    {
      var leaf := src / LEAF;
      if touched != [] && touched[|touched| - 1] == leaf {
        return;
      }
      MoreLeaves(touched, leaf);
      touched := touched + [leaf];
      if |touched| >= dedupLimit {
        touched := SortDedup(touched);
        assert leaf in touched;
        AscendingSize(touched);
        dedupLimit := Max(2 * |touched|, TOUCHED_LEAVES_DEDUP_START);
      }
    }

    // -- The retire log -----------------------------------------------------------

    /** Stamp everything logged; all of it was unpublished by an earlier root store. */
    method StampRetired(stamp: nat)
      requires arena.Valid() && State(arena.mem, arena.inUse, roots, trees, log.Contents(), leaked)
      requires arena.lastStamp <= stamp
      modifies arena, log
      ensures arena.Valid() && State(arena.mem, arena.inUse, roots, trees, log.Contents(), leaked)
      ensures log.chunks == [] && log.interiors == [] && log.Contents() == multiset{}
      ensures arena.lastStamp <= stamp && SameStarts()
      ensures arena.asked == old(arena.asked) + (if old(log.chunks) == [] && old(log.interiors) == [] then 0 else 1)
      ensures arena.Recycling(old(log.Contents()), stamp, old(arena.phase) + 2, arena.readers(old(arena.asked)).minPinned)
      ensures old(arena.phase) <= arena.phase
      ensures old(arena.Supply()).idle && old(arena.Young(log)) && arena.Quiet() ==> arena.Supply() == old(Stamped())
    {
      hide Arena.Valid, Arena.Recycling, StillHeld, LiveBag, Rooted, QueueBag, Arena.Quiet, Arena.Young;
      LoggedUsed(arena.inUse, trees, log.Contents(), leaked);
      ghost var m0, u0, logged := arena.mem, arena.inUse, log.Contents();
      arena.Retire(log, stamp);
      Retired(m0, u0, arena.mem, roots, trees, logged, leaked);
    }

    /** The stock once everything logged is on the free lists. */
    ghost function Stamped(): Stock
      reads this, arena, log
    {
      var s := arena.Supply();
      s.(freeChunks := s.freeChunks + |log.chunks|, freeInteriors := s.freeInteriors + |log.interiors|)
    }

    /** Stamp the log for the guard. */
    method Restamp()
      requires Valid() && guarded
      modifies arena, log
      ensures Valid() && log.chunks == [] && log.interiors == [] && log.Contents() == multiset{}
      ensures SameStarts()
      ensures old(arena.Supply()).idle && old(arena.Young(log)) && arena.Quiet() ==> arena.Supply() == old(Stamped())
    {
      hide Arena.Valid, WalWriter.Valid, State, Consistent, RetireLog.Contents, Arena.Quiet, Arena.Young, Arena.Supply, Stamped;
      StampRetired(retireStamp);
    }

    /** The log is below the watermark at which the guard stamps it. */
    ghost predicate Trim()
      reads log
    {
      |log.chunks| < RETIRE_LOG_CAP - HEADROOM && |log.interiors| < RETIRE_LOG_CAP - HEADROOM
    }

    method MaybeStampRetired()
      requires Valid() && guarded
      modifies arena, log
      ensures Valid() && SameStarts() && Trim()
      ensures |old(log.chunks)| + |old(log.interiors)| < RETIRE_LOG_CAP - HEADROOM ==> unchanged(arena) && unchanged(log)
    {
      hide Valid;
      if |log.chunks| >= RETIRE_LOG_CAP - HEADROOM || |log.interiors| >= RETIRE_LOG_CAP - HEADROOM {
        Restamp();
      }
    }

    lemma Lengths()
      requires Valid()
      ensures |trees| == |roots| == numVertices <= MAX_VERTICES
    {
      hide Arena.Valid, WalWriter.Valid, State, TableMatches, Recorded;
    }

    /** Cut the log back to earlier lengths; a log already shorter stays as it is. */
    method TruncateLog(chunksMark: nat, interiorsMark: nat)
      modifies log
      ensures log.chunks == Cut(old(log.chunks), chunksMark) && log.interiors == Cut(old(log.interiors), interiorsMark)
    {
      if chunksMark < |log.chunks| {
        log.chunks := log.chunks[..chunksMark];
      }
      if interiorsMark < |log.interiors| {
        log.interiors := log.interiors[..interiorsMark];
      }
    }

    // -- Single edges -----------------------------------------------------------------

    /** The store that makes a tree visible, and the bookkeeping the guard buffers for it. */
    method StoreRoot(src: nat, root: Option<Slot>, n: nat, ghost t: Option<Tree>, ghost skew: bool)
      requires src < |roots| == |trees|
      modifies this`roots, this`trees, this`pendingEdges, this`skewed, this`touched, this`dedupLimit
      ensures roots == old(roots)[src := root] && trees == old(trees)[src := t]
      ensures pendingEdges == old(pendingEdges) + n
      ensures skewed == (if skew then old(skewed) + {src} else old(skewed) - {src})
      ensures touched != [] && forall l :: l in touched <==> l in old(touched) || l == src / LEAF
    {
      roots := roots[src := root];
      trees := trees[src := t];
      skewed := if skew then skewed + {src} else skewed - {src};
      NoteRootStore(src);
      pendingEdges := pendingEdges + n;
    }

    /** Append a source's new edges to the log, if there is one. */
    method LogEdges(src: U32, dsts: seq<U32>) returns (ok: bool)
      requires wal != null ==> wal.Valid()
      modifies wal, this`walFailed
      ensures wal != null ==> wal.Valid()
      ensures wal != null ==> Records() == if ok then old(Records()) + EdgesOf(src, dsts) else old(Records())
      ensures walFailed == (old(walFailed) || !ok) && (!ok ==> SpillNeeded(old(Staged()), |dsts|))
    {
      ok := true;
      if wal != null {
        var io: seq<WriteOutcome> := *;
        var rest;
        ok, rest := wal.AppendEdges(src, dsts, io);
        if !ok {
          walFailed := true;
        }
      }
    }

    /** Insert off to the side: what publishing the result, or abandoning it, would leave. */
    method TryInsert(src: nat, dst: nat) returns (res: InsertResult, ghost t': Tree, ghost added: set<Slot>, ghost lost: set<Slot>,
                                                  ghost failed: bool)
      requires arena.Valid() && State(arena.mem, arena.inUse, roots, trees, log.Contents(), leaked)
      requires src < |trees| && Bounded(trees, skewed)
      modifies arena, log
      ensures arena.Valid() && arena.lastStamp == old(arena.lastStamp)
      ensures State(arena.mem, arena.inUse, roots, trees, old(log.Contents()), leaked + added)
      ensures res.Inserted? ==>
        && State(arena.mem, arena.inUse, roots[src := Some(res.root)], trees[src := Some(t')], log.Contents(), leaked + lost)
        && Gains(trees[src], Some(t'), [dst]) && VertexBounded(Some(t'), src in skewed || failed)
        && old(log.chunks) <= log.chunks && old(log.interiors) <= log.interiors
        && (old(Leafy()) ==> Leafy())
      ensures !Grew(res) ==> unchanged(log)
      ensures (res.Inserted? && !failed ==> lost == {}) && (res.Duplicate? ==> added == {})
      ensures res.Overran? ==> Overruns(trees[src], dst) && dst !in RElems(trees[src])
      ensures Doomed(old(arena.Supply()), trees[src], dst) ==> res.Overran?
      ensures res.Duplicate? ==> dst in RElems(trees[src])
      ensures dst in RElems(trees[src]) && !Deep(trees[src], dst) ==> res.Duplicate?
      ensures res.ArenaFull? ==> arena.Exhausted() || Deep(trees[src], dst)
      ensures SameStarts()
      ensures Metered(old(arena.Supply()), trees[src], dst) ==>
        && res.Inserted?
        && Pushed(trees[src], Some(t'), dst, old(arena.Supply()), arena.Supply(), |log.chunks| - |old(log.chunks)|, |log.interiors| - |old(log.interiors)|)
      ensures old(arena.Supply()).idle && ChunkBytes(old(arena.Supply())) < CHUNK_SLOT ==> !Grew(res) && arena.Supply() == old(arena.Supply())
    {
      hide Arena.Valid, State, RetireLog.Contents, Grown, Gains, HeightKept, InsertDone, RSlots, VertexBounded, Arena.Exhausted;
      hide InsertTook, Outgrowth, Metered, Pushed, ChunkBytes, Arena.Supply, Overruns, Doomed;
      ghost var m0, u0, logged, s0 := arena.mem, arena.inUse, log.Contents(), arena.Supply();
      StateAt(m0, u0, roots, trees, logged, leaked, src);
      ghost var gone: set<Slot>;
      res, t', gone, added, lost, failed := InsertWithScratch(arena, roots[src], dst, log, trees[src]);
      if Metered(s0, trees[src], dst) {
        MeteredNew(s0, trees[src], dst);
        MeteredPushed(s0, arena.Supply(), res, trees[src], t', dst, failed, |log.chunks| - |old(log.chunks)|, |log.interiors| - |old(log.interiors)|);
      }
      if s0.idle && ChunkBytes(s0) < CHUNK_SLOT {
        NoneTaken(s0, arena.Supply(), res, trees[src], dst, failed);
      }
      if Doomed(s0, trees[src], dst) {
        DoomedFacts(s0, trees[src], dst);
        DoomedOverran(s0, arena.Supply(), res, trees[src], dst, failed);
      }
      if res.Overran? {
        NewValue(arena.mem, trees[src], t', dst, gone, added, lost);
      }
      Leak(m0, u0, arena.mem, arena.inUse, added, roots, trees, logged, leaked);
      if res.Inserted? {
        PublishOne(m0, u0, arena.mem, arena.inUse, roots, trees, logged, leaked, src, t', dst, gone, added, lost, failed, skewed);
      }
    }

    /** Append the new edges, then publish; a failed append changes nothing but the failure flag. */
    method LogAndStore(src: U32, root: Option<Slot>, news: seq<U32>, ghost t: Option<Tree>, ghost skew: bool) returns (ok: bool)
      requires Consistent() && src < numVertices && Gains(trees[src], t, news) && VertexBounded(t, skew)
      requires forall x :: x in news ==> x < numVertices
      modifies wal, this`roots, this`trees, this`pendingEdges, this`skewed, this`touched, this`dedupLimit, this`walFailed
      ensures Consistent() && walFailed == (old(walFailed) || !ok) && (!ok ==> SpillNeeded(old(Staged()), |news|))
      ensures !ok ==> Unpublished()
      ensures ok ==> roots == old(roots)[src := root] && trees == old(trees)[src := t] && Inserted(src, news)
      ensures ok ==> skewed == if skew then old(skewed) + {src} else old(skewed) - {src}
    {
      hide WalWriter.Valid, Meaning, Recorded, TableMatches, RElems, Gains, VertexBounded;
      MeaningLength(numVertices, trees, skewed, numEdges, pendingEdges, latest.numEdges, touched);
      ghost var trees0, skewed0, pending0, roots0, touched0 := trees, skewed, pendingEdges, roots, touched;
      ok := LogEdges(src, news);
      if ok {
        StoreRoot(src, root, |news|, t, skew);
        Republished(numVertices, trees0, skewed0, numEdges, pending0, latest, touched0, roots0, old(Records()), wal != null,
                    src, root, t, news, skewed, touched);
      }
    }

    /** The edge is within range and nothing is logged on disk. */
    ghost predicate Pushable(src: nat, dst: nat)
      reads this
    {
      wal == null && !walFailed && src < numVertices && dst < numVertices && src < |trees|
    }

    /** No chunk is to be had before the log is stamped, and all of the log is afterwards. */
    ghost predicate Dry()
      reads this, arena, log
    {
      arena.Supply().idle && ChunkBytes(arena.Supply()) < CHUNK_SLOT && arena.Quiet() && arena.Young(log)
    }

    /** One insertion is metered as the stock is, or will be once the log is stamped for want of a chunk. */
    ghost predicate PushReady(src: nat, dst: nat)
      reads this, arena, log
    {
      Pushable(src, dst) && ShortLog(src) && Metered(arena.Supply(), trees[src], dst)
    }

    ghost predicate PushDry(src: nat, dst: nat)
      reads this, arena, log
    {
      Pushable(src, dst) && Dry() && Metered(Stamped(), trees[src], dst)
    }

    /** The search path for the edge is longer than a descent records. */
    ghost predicate TooDeep(src: nat, dst: nat)
      reads this`trees
    {
      src < |trees| && Deep(trees[src], dst)
    }

    /** A new edge, whose insertion asks for a rebuild that overruns its traversal. */
    ghost predicate Topples(src: nat, dst: nat)
      reads this`trees
    {
      src < |trees| && Overruns(trees[src], dst) && dst !in RElems(trees[src])
    }

    /** And there is room for the copy before it. */
    ghost predicate DoomedAt(src: nat, dst: nat)
      reads this`trees, this`arena, arena
    {
      src < |trees| && Doomed(arena.Supply(), trees[src], dst)
    }

    lemma PushFacts(src: nat, dst: nat)
      requires PushReady(src, dst)
      ensures src < |trees| && trees[src].Some? && Metered(arena.Supply(), trees[src], dst) && wal == null
      ensures |log.chunks| + |log.interiors| + 1 + LeftDepth(trees[src].value) < RETIRE_LOG_CAP - HEADROOM
    {
      hide LeftDepth, Overdeep, RoomToInsert, Sound, Under;
    }

    /** What one more path logs does not bring the log to its watermark. */
    ghost predicate ShortLog(src: nat)
      reads this`trees, log
    {
      src < |trees| && trees[src].Some? ==> |log.chunks| + |log.interiors| + 1 + LeftDepth(trees[src].value) < RETIRE_LOG_CAP - HEADROOM
    }

    /** The new tree of `src` and the stock are what one insertion under the stock `s` leaves. */
    twostate predicate PushedBy(src: nat, dst: nat, new s: Stock, chunks: int, interiors: int)
      reads this, arena
    {
      src < |old(trees)| && src < |trees| && Pushed(old(trees)[src], trees[src], dst, s, arena.Supply(), chunks, interiors)
    }

    lemma TriedReady(src: U32, root: Option<Slot>, dst: U32, t: Option<Tree>, added: set<Slot>, lost: set<Slot>, skew: bool, kept: multiset<Slot>)
      requires arena.Valid() && src < |trees| && dst < |trees| && Consistent() && Stamps()
      requires State(arena.mem, arena.inUse, roots, trees, kept, leaked + added)
      requires State(arena.mem, arena.inUse, roots[src := root], trees[src := t], log.Contents(), leaked + lost)
      requires Gains(trees[src], t, [dst]) && VertexBounded(t, skew)
      ensures Ready(src, root, [dst], t, added, lost, skew, kept, log.Contents())
    {
      hide Arena.Valid, State, Consistent, Stamps, Gains, VertexBounded, RetireLog.Contents;
      StateLength(arena.mem, arena.inUse, roots, trees, kept, leaked + added);
    }

    /** Append the edge and publish its tree, or take its entries back from the log. */
    method StoreEdge(src: U32, root: Slot, dst: U32, chunksMark: nat, interiorsMark: nat, ghost t: Tree, ghost added: set<Slot>,
                     ghost lost: set<Slot>, ghost failed: bool, ghost kept: multiset<Slot>) returns (ok: bool)
      requires Ready(src, Some(root), [dst], Some(t), added, lost, src in skewed || failed, kept, log.Contents())
      requires guarded && !walFailed && Leafy()
      modifies this, arena, log, wal
      ensures |trees| == |old(trees)| && src < |trees| && walFailed == !ok
      ensures ok ==> Valid() && Inserted(src, [dst]) && trees[src] == Some(t) && Trim()
      ensures ok ==> leaked == old(leaked) + lost && (failed ==> src in skewed)
      ensures ok && |old(log.chunks)| + |old(log.interiors)| < RETIRE_LOG_CAP - HEADROOM ==> unchanged(arena) && unchanged(log)
      ensures !ok ==> Unpublished() && Held(kept) && SpillNeeded(old(Staged()), 1) && unchanged(arena)
      ensures !ok ==> log.chunks == Cut(old(log.chunks), chunksMark) && log.interiors == Cut(old(log.interiors), interiorsMark)
      ensures SameParts() && SameStarts() && guarded && retireStamp == old(retireStamp)
    {
      hide Arena.Valid, WalWriter.Valid, State, Meaning, Recorded, TableMatches, RetireLog.Contents, RElems, Gains, VertexBounded;
      MeaningLength(numVertices, trees, skewed, numEdges, pendingEdges, latest.numEdges, touched);
      ok := LogAndStore(src, Some(root), [dst], Some(t), src in skewed || failed);
      if ok {
        leaked := leaked + lost;
        MaybeStampRetired();
      } else {
        TruncateLog(chunksMark, interiorsMark);
        leaked := leaked + added;
      }
    }

    method InsertEdgeInner(src: U32, dst: U32) returns (r: EdgeResult)
      requires Valid() && guarded && !walFailed && src < numVertices && dst < numVertices
      modifies this, arena, log, wal
      ensures |trees| == |old(trees)| == numVertices
      ensures r.Done? || r == Full || r == WalAppend || r == Panicked
      ensures r == Done(false) ==> dst in RElems(trees[src])
      ensures dst in RElems(old(trees)[src]) && !Deep(old(trees)[src], dst) ==> r == Done(false)
      ensures r == Full ==> arena.Exhausted() || Deep(trees[src], dst)
      ensures old(arena.Supply()).idle && ChunkBytes(old(arena.Supply())) < CHUNK_SLOT && src < |old(trees)| && dst !in RElems(old(trees)[src]) ==>
        r == Full && arena.Supply() == old(arena.Supply())
      ensures old(PushReady(src, dst)) ==>
        r == Done(true) && PushedBy(src, dst, old(arena.Supply()), |log.chunks| - |old(log.chunks)|, |log.interiors| - |old(log.interiors)|)
      ensures old(DoomedAt(src, dst)) ==> r == Panicked
      ensures (walFailed <==> r == WalAppend) && (walFailed ==> SpillNeeded(old(Staged()), 1))
      ensures r == Full ==> Staged() == old(Staged())
      ensures r == Done(true) ==> Trim() && (src !in skewed ==> leaked == old(leaked))
      ensures r == Done(false) ==> leaked == old(leaked)
      ensures r != Done(true) ==> Unpublished()
      ensures r != Done(true) && r != Panicked ==> log.chunks == old(log.chunks) && log.interiors == old(log.interiors)
      ensures SameStarts()
      ensures r == Done(true) ==> Inserted(src, [dst])
      ensures SameParts() && guarded && retireStamp == old(retireStamp) && (r != Panicked ==> Valid())
      ensures r == Panicked ==> Held(old(log.Contents())) && Topples(src, dst)
    {
      hide Arena.Valid, WalWriter.Valid, State, Meaning, Recorded, TableMatches, Bag, RElems, Gains, VertexBounded, Deep, Arena.Exhausted;
      hide Metered, Pushed, ChunkBytes, Arena.Supply, PushReady, ShortLog, Overruns, Doomed, Trim;
      MeaningLength(numVertices, trees, skewed, numEdges, pendingEdges, latest.numEdges, touched);
      var chunksMark, interiorsMark := |log.chunks|, |log.interiors|;
      ghost var metered, kept := PushReady(src, dst), log.Contents();
      if metered {
        PushFacts(src, dst);
      }
      var res, t', added, lost, failed := TryInsert(src, dst);
      match res
      case Inserted(root) =>
        if metered {
          PushedLog(trees[src], Some(t'), dst, old(arena.Supply()), arena.Supply(),
                    |log.chunks| - |old(log.chunks)|, |log.interiors| - |old(log.interiors)|);
        }
        TriedReady(src, Some(root), dst, Some(t'), added, lost, src in skewed || failed, kept);
        var ok := StoreEdge(src, root, dst, chunksMark, interiorsMark, t', added, lost, failed, kept);
        if ok {
          return Done(true);
        }
        assert log.chunks == old(log.chunks) && log.interiors == old(log.interiors);
        StillValid(kept);
        return WalAppend;
      case Duplicate =>
        leaked := leaked + added;
        return Done(false);
      case ArenaFull =>
        leaked := leaked + added;
        return Full;
      case Overran =>
        leaked := leaked + added;
        return Panicked;
    }

    /**
     * Insert one edge. A full arena is retried once after stamping what earlier inserts logged, which
     * may let the allocator reclaim. Every outcome but a new edge leaves all edges as they were, and so
     * does a panic, which only an insertion whose rebuild overruns its traversal ends in.
     */
    method InsertEdge(src: U32, dst: U32) returns (r: EdgeResult)
      requires Valid() && guarded
      modifies this, arena, log, wal
      ensures |trees| == |old(trees)| == numVertices
      ensures r == OutOfRange(src, dst) <==> src >= numVertices || dst >= numVertices
      ensures r.OutOfRange? ==> r == OutOfRange(src, dst)
      ensures r == Done(false) ==> HasEdge(trees, src, dst)
      ensures r == Full ==> log.chunks == [] && log.interiors == []
      ensures r == Full ==> (HasEdge(trees, src, dst) ==> TooDeep(src, dst)) && (arena.Exhausted() || TooDeep(src, dst))
      ensures old(PushReady(src, dst)) ==>
        r == Done(true) && PushedBy(src, dst, old(arena.Supply()), |log.chunks| - |old(log.chunks)|, |log.interiors| - |old(log.interiors)|)
      ensures !old(walFailed) && src < numVertices && dst < numVertices && old(DoomedAt(src, dst)) ==> r == Panicked
      ensures old(PushDry(src, dst)) ==>
        r == Done(true) && PushedBy(src, dst, old(Stamped()), |log.chunks|, |log.interiors|)
      ensures r == WalAppend <==> walFailed && src < numVertices && dst < numVertices
      ensures walFailed && !old(walFailed) ==> SpillNeeded(old(Staged()), 1)
      ensures r == Done(true) ==> Trim()
      ensures r != Done(true) ==> Unpublished()
      ensures SameStarts() && walFailed == (old(walFailed) || r == WalAppend)
      ensures r == Done(true) ==> Inserted(src, [dst])
      ensures SameParts() && guarded && retireStamp == old(retireStamp) && (r != Panicked ==> Valid())
      ensures r == Panicked ==> Whole() && Topples(src, dst)
    {
      hide Valid, Held, Overruns, Doomed, RElems, Gains, Deep, Arena.Exhausted, Metered, Pushed, ChunkBytes, Arena.Supply, Arena.Quiet;
      Lengths();
      if src >= numVertices || dst >= numVertices {
        return OutOfRange(src, dst);
      }
      if walFailed {
        return WalAppend;
      }
      ghost var dry := PushDry(src, dst);
      if dry {
        MeteredNew(Stamped(), trees[src], dst);
      }
      r := InsertEdgeInner(src, dst);
      if r == Full {
        Restamp();
        r := InsertEdgeInner(src, dst);
      }
    }

    // -- Batches of one source -----------------------------------------------------------

    /**
     * Why a batch found no room: a region can hand out nothing, or the chain had reached, in memory, a
     * tree with a path longer than a descent records.
     */
    ghost predicate Blocked(dsts: seq<nat>, stuck: Option<Tree>)
      reads this`arena, arena
    {
      || arena.Exhausted()
      || (stuck.Some? && Stored(arena.mem, stuck.value) && exists d :: d in dsts && Deep(stuck, d))
    }

    /** One insertion of a chain: the chain grows by `val`, or stands as it was. */
    method ExtendChain(root: Option<Slot>, val: nat, ghost m0: Mem, ghost u0: set<Slot>, ghost t0: Option<Tree>, ghost t: Option<Tree>,
                       ghost news: seq<nat>, ghost gone: set<Slot>, ghost added: set<Slot>, ghost lost: set<Slot>, ghost skewed: bool)
        returns (full: bool, overran: bool, isNew: bool, root': Option<Slot>, ghost t': Option<Tree>, ghost g: set<Slot>, ghost f: set<Slot>,
                 ghost l: set<Slot>, ghost failed: bool)
      requires arena.Valid() && Chain(m0, u0, arena.mem, arena.inUse, t0, root, t, news, gone, added, lost, skewed)
      modifies arena, log
      ensures arena.Valid() && arena.lastStamp == old(arena.lastStamp)
      ensures Chain(m0, u0, arena.mem, arena.inUse, t0, root', t', if isNew then news + [val] else news,
                    gone + g, added + f, lost + l, skewed || failed)
      ensures !overran ==> log.Contents() == old(log.Contents()) + multiset(g)
      ensures multiset(gone + g) == multiset(gone) + multiset(g)
      ensures old(log.chunks) <= log.chunks && old(log.interiors) <= log.interiors
      ensures !isNew ==> (!overran ==> unchanged(log)) && root' == root && t' == t
      ensures !full && !overran && !isNew ==> val in news || val in RElems(t0)
      ensures (full ==> !isNew && !overran) && (overran ==> !isNew && Overruns(t, val))
      ensures isNew ==> StepUp(t, t')
      ensures !full && !overran && !failed ==> l == {}
      ensures isNew ==> LiveFirst(old(log.chunks), log.chunks, t)
      ensures full ==> arena.Exhausted() || Deep(t, val)
      ensures SameStarts() && (!overran && old(Leafy()) ==> Leafy())
      ensures Leaner(old(arena.Supply()), arena.Supply(), 0)
      ensures !overran ==> Extended(old(arena.Supply()), arena.Supply(), t, val, if isNew then 1 else 0)
    {
      hide Arena.Valid, Arena.Exhausted, RetireLog.Contents, Grown, RElems, HeightKept, InsertDone, RSlots, Chain;
      hide Extended, InsertTook, Outgrowth, Arena.Supply, ChunkBytes, Overruns, StepUp, Leaner;
      ghost var m1, u1, s1 := arena.mem, arena.inUse, arena.Supply();
      ChainRoot(m0, u0, m1, u1, t0, root, t, news, gone, added, lost, skewed);
      var res, nt, gs, fs, ls, fl := InsertWithScratch(arena, root, val, log, t);
      TookExtended(s1, arena.Supply(), res, t, val, fl);
      root', t', g, f, l, failed := root, t, {}, fs, fs, false;
      overran := false;
      assert gone + {} == gone;
      match res
      case Inserted(r) =>
        ChainStep(m0, u0, m1, u1, t0, root, t, news, gone, added, lost, skewed, arena.mem, arena.inUse, nt, val, gs, fs, ls, fl);
        AddedSteps(m1, t, nt, val, gs, fs, ls, fl, arena.mem, root, |log.chunks| - |old(log.chunks)|, |log.interiors| - |old(log.interiors)|);
        return false, false, true, Some(r), Some(nt), gs, fs, ls, fl;
      case Duplicate =>
        ChainHas(m0, u0, m1, u1, t0, root, t, news, gone, added, lost, skewed, val);
        ChainKept(m0, u0, m1, u1, t0, root, t, news, gone, added, lost, skewed, arena.mem, arena.inUse, fs);
        full, isNew := false, false;
      case ArenaFull =>
        ChainKept(m0, u0, m1, u1, t0, root, t, news, gone, added, lost, skewed, arena.mem, arena.inUse, fs);
        full, isNew := true, false;
      case Overran =>
        ChainKept(m0, u0, m1, u1, t0, root, t, news, gone, added, lost, skewed, arena.mem, arena.inUse, fs);
        full, isNew, overran := false, false, true;
    }

    /** The insertions of a chain, one after the other, until one finds no room. */
    method RunChain(start: Option<Slot>, dsts: seq<U32>, ghost t0: Option<Tree>, ghost skew: bool)
        returns (full: bool, overran: bool, root: Option<Slot>, news: seq<U32>, ghost t: Option<Tree>, ghost gone: set<Slot>, ghost added: set<Slot>,
                 ghost lost: set<Slot>, ghost failed: bool, ghost k: nat)
      requires arena.Valid() && RootAt(arena.mem, start, t0) && RSlots(t0) <= arena.inUse && VertexBounded(t0, skew)
      modifies arena, log
      ensures Seen(t0, dsts, k, news) && (full ==> !overran)
      ensures if full then k < |dsts| && (arena.Exhausted() || Deep(t, dsts[k]))
              else if overran then k < |dsts| && Overruns(t, dsts[k]) else k == |dsts|
      ensures Calm(t0, |dsts|) ==> !overran
      ensures !full && !overran && !failed ==> lost == {}
      ensures !overran ==> ChainTook(old(arena.Supply()), arena.Supply(), dsts != [], dsts != [] && FirstFits(old(arena.Supply()), t0, dsts[0]), |news|)
      ensures arena.Valid() && arena.lastStamp == old(arena.lastStamp) && SameStarts()
      ensures Chain(old(arena.mem), old(arena.inUse), arena.mem, arena.inUse, t0, root, t, news, gone, added, lost, skew || failed)
      ensures !overran ==> log.Contents() == old(log.Contents()) + multiset(gone) && (old(Leafy()) ==> Leafy())
      ensures old(log.chunks) <= log.chunks && old(log.interiors) <= log.interiors
      ensures !overran ==> if news == [] then log.chunks == old(log.chunks) && log.interiors == old(log.interiors)
              else LiveFirst(old(log.chunks), log.chunks, t0)
    {
      hide Arena.Valid, Arena.Exhausted, Deep, RElems, RSlots, RootAt, VertexBounded, Chain, Seen, LiveFirst, Bag, RetireLog.Contents;
      hide Extended, ChainTook, FirstFits, Arena.Supply, Overruns, StepUp, Calm, Leaner, Tallied, Started;
      ghost var m0, u0, s0, logged, c0, i0 := arena.mem, arena.inUse, arena.Supply(), log.Contents(), log.chunks, log.interiors;
      ghost var fits := dsts != [] && FirstFits(s0, t0, dsts[0]);
      root, t, news := start, t0, [];
      added, lost, gone, failed, full, overran := {}, {}, {}, false, false, false;
      ChainStart(m0, u0, root, t, skew);
      TallyNone(s0, logged, fits);
      SeenNone(t0, dsts);
      StartNone(c0, i0, t0);
      var i := 0;
      while i < |dsts| && !full && !overran
        invariant 0 <= i <= |dsts|
        invariant arena.Valid() && arena.lastStamp == old(arena.lastStamp) && SameStarts()
        invariant Chain(m0, u0, arena.mem, arena.inUse, t0, root, t, news, gone, added, lost, skew || failed)
        invariant !overran && old(Leafy()) ==> Leafy()
        invariant c0 <= log.chunks && old(log.interiors) <= log.interiors && (full ==> !overran)
        invariant overran ==> i < |dsts| && Overruns(t, dsts[i])
        invariant Calm(t0, |dsts|) ==> !overran && Calm(t, |dsts| - i)
        invariant !overran ==> Started(c0, i0, log.chunks, log.interiors, news == [], t == t0, t0)
        invariant Seen(t0, dsts, i, news)
        invariant full ==> i < |dsts| && (arena.Exhausted() || Deep(t, dsts[i]))
        invariant i == 0 && !full && !overran ==> t == t0
        invariant !overran ==> Tallied(s0, arena.Supply(), logged, log.Contents(), gone, lost, i > 0 || full, fits, |news|, full || failed)
        decreases |dsts| - i, !full && !overran
      {
        ghost var s1, chunks, interiors, contents := arena.Supply(), log.chunks, log.interiors, log.Contents();
        var stop, over, isNew, r, t', g, f, l, fl := ExtendChain(root, dsts[i], m0, u0, t0, t, news, gone, added, lost, skew || failed);
        if Calm(t0, |dsts|) {
          CalmStep(t, t', |dsts| - i, dsts[i]);
        }
        if !over {
          TallyNext(s0, s1, arena.Supply(), logged, contents, log.Contents(), gone, g, lost, l, i > 0, t, dsts[i], t0, dsts[0],
                    |news|, if isNew then 1 else 0, failed, stop || failed || fl);
          StartedNext(c0, i0, chunks, interiors, t == t0, t0, t, log.chunks, log.interiors, t' == t0, news == [], isNew);
          if !stop {
            SeenNext(t0, dsts, i, news, isNew);
          }
        }
        full, overran, root, t := stop, over, r, t';
        gone, added, lost, failed := gone + g, added + f, lost + l, failed || fl;
        if isNew {
          news := news + [dsts[i]];
        }
        if !full && !overran {
          i := i + 1;
        }
      }
      k := i;
      if !overran {
        StartedMeans(c0, i0, log.chunks, log.interiors, news == [], t == t0, t0);
        TallyMeans(s0, arena.Supply(), logged, log.Contents(), gone, lost, i > 0 || full, fits, |news|, full || failed);
      }
    }

    /**
     * Chain path-copying insertions from the published tree, off to the side. Either the whole chain
     * fits, or it stops at a destination that finds no room. Each insertion takes a chunk at least.
     */
    method ChainAttempt(src: nat, dsts: seq<U32>)
        returns (full: bool, overran: bool, root: Option<Slot>, news: seq<U32>, ghost t: Option<Tree>, ghost added: set<Slot>,
                 ghost lost: set<Slot>, ghost failed: bool)
      requires Valid() && src < numVertices && forall x :: x in dsts ==> x < numVertices
      modifies arena, log
      ensures src < |trees| && (full ==> !overran) && (Calm(trees[src], |dsts|) ==> !overran)
      ensures overran ==> Upheld(added, old(log.Contents())) && Collapsed(dsts, t)
      ensures !overran ==> Ready(src, root, news, t, added, lost, src in skewed || failed, old(log.Contents()), log.Contents())
      ensures old(log.chunks) <= log.chunks && old(log.interiors) <= log.interiors
      ensures !full && !overran ==> NewOnes(trees[src], dsts, news)
      ensures !overran && news == [] ==> log.chunks == old(log.chunks) && log.interiors == old(log.interiors)
      ensures !overran && news != [] ==> LiveFirst(old(log.chunks), log.chunks, trees[src])
      ensures full ==> Blocked(dsts, t)
      ensures !full && !overran && !failed ==> lost == {}
      ensures SameStarts() && (!overran && old(Leafy()) ==> Leafy())
      ensures !overran ==> Leaner(old(arena.Supply()), arena.Supply(), CHUNK_SLOT * |news|)
      ensures !overran && old(arena.Supply()).idle && ChunkBytes(old(arena.Supply())) < CHUNK_SLOT ==> arena.Supply() == old(arena.Supply())
      ensures !overran && dsts != [] && FirstFits(old(arena.Supply()), trees[src], dsts[0]) ==> news != []
    {
      hide Valid, Arena.Valid, Arena.Exhausted, Deep, Blocked, State, RElems, RSlots, VertexBounded, Chain, Consistent, Ready, NewOnes, Seen;
      hide Leaner, ChunkBytes, Arena.Supply, FirstFits, ChainTook, LiveFirst, Overruns, Calm, Upheld, Collapsed;
      AtVertex(src);
      ghost var m0, u0, s0, logged := arena.mem, arena.inUse, arena.Supply(), log.Contents();
      ghost var gone: set<Slot>, k: nat;
      full, overran, root, news, t, gone, added, lost, failed, k := RunChain(roots[src], dsts, trees[src], src in skewed);
      SeenIn(trees[src], dsts, k, news);
      if overran {
        ChainUpheld(src, m0, u0, root, t, news, gone, added, lost, src in skewed || failed, logged, dsts, k);
        return;
      }
      ChainReady(src, m0, u0, root, t, news, gone, added, lost, src in skewed || failed, logged);
      TookAll(s0, arena.Supply(), dsts != [], dsts != [] && FirstFits(s0, trees[src], dsts[0]), |news|);
      SeenAll(trees[src], dsts, k, news);
      if full {
        ChainRoot(m0, u0, arena.mem, arena.inUse, trees[src], root, t, news, gone, added, lost, src in skewed || failed);
        BlockedAt(dsts, k, root, t);
      }
    }

    /** A chain that panicked: the published trees stand, and what it allocated belongs to nobody. */
    ghost predicate Upheld(added: set<Slot>, kept: multiset<Slot>)
      reads this, arena, wal
    {
      arena.Valid() && State(arena.mem, arena.inUse, roots, trees, kept, leaked + added) && Consistent() && Stamps()
    }

    /** Some destination of a chain would rebuild more of a tree it had reached than a traversal can stack. */
    ghost predicate Collapsed(dsts: seq<nat>, stuck: Option<Tree>)
      reads this`arena, arena
    {
      stuck.Some? && Stored(arena.mem, stuck.value) && exists d :: d in dsts && Overruns(stuck, d)
    }

    lemma ChainUpheld(src: nat, m0: Mem, u0: set<Slot>, root: Option<Slot>, t: Option<Tree>, news: seq<nat>, gone: set<Slot>,
                      added: set<Slot>, lost: set<Slot>, skew: bool, logged: multiset<Slot>, dsts: seq<nat>, k: nat)
      requires arena.Valid() && Consistent() && Stamps() && src < |trees| && State(m0, u0, roots, trees, logged, leaked)
      requires Chain(m0, u0, arena.mem, arena.inUse, trees[src], root, t, news, gone, added, lost, skew)
      requires k < |dsts| && Overruns(t, dsts[k])
      ensures Upheld(added, logged) && Collapsed(dsts, t)
    {
      hide Arena.Valid, State, Consistent, Stamps, Chain, Gains, VertexBounded, RetireLog.Contents, RootAt, RSlots, RebuildSteps;
      ChainEnd(m0, u0, arena.mem, arena.inUse, root, t, news, gone, added, lost, skew, roots, trees, logged, leaked, src);
      ChainRoot(m0, u0, arena.mem, arena.inUse, trees[src], root, t, news, gone, added, lost, skew);
      RootStored(arena.mem, root, t);
    }

    lemma ChainReady(src: nat, m0: Mem, u0: set<Slot>, root: Option<Slot>, t: Option<Tree>, news: seq<nat>, gone: set<Slot>,
                     added: set<Slot>, lost: set<Slot>, skew: bool, logged: multiset<Slot>)
      requires arena.Valid() && Consistent() && Stamps() && src < |trees| && State(m0, u0, roots, trees, logged, leaked)
      requires Chain(m0, u0, arena.mem, arena.inUse, trees[src], root, t, news, gone, added, lost, skew)
      requires log.Contents() == logged + multiset(gone) && (news == [] ==> log.Contents() == logged)
      requires forall x :: x in news ==> x < |trees|
      ensures Ready(src, root, news, t, added, lost, skew, logged, log.Contents())
      ensures forall x :: x in news ==> x !in RElems(trees[src])
    {
      hide Arena.Valid, State, Consistent, Stamps, Chain, Gains, VertexBounded, RetireLog.Contents;
      ChainEnd(m0, u0, arena.mem, arena.inUse, root, t, news, gone, added, lost, skew, roots, trees, logged, leaked, src);
    }

    /** Where a chain for `src` starts from. */
    lemma AtVertex(src: nat)
      requires Valid() && src < numVertices
      ensures src < |trees| == |roots| == numVertices && VertexBounded(trees[src], src in skewed)
      ensures RootAt(arena.mem, roots[src], trees[src]) && RSlots(trees[src]) <= arena.inUse
      ensures arena.Valid() && Consistent() && Stamps()
      ensures State(arena.mem, arena.inUse, roots, trees, log.Contents(), leaked)
    {
      hide Arena.Valid, WalWriter.Valid, State, Meaning, Recorded, TableMatches, RootAt, RSlots, VertexBounded;
      MeaningLength(numVertices, trees, skewed, numEdges, pendingEdges, latest.numEdges, touched);
      BoundedAt(trees, skewed, src);
      StateAt(arena.mem, arena.inUse, roots, trees, log.Contents(), leaked, src);
    }

    lemma BlockedAt(dsts: seq<nat>, k: nat, root: Option<Slot>, t: Option<Tree>)
      requires k < |dsts| && RootAt(arena.mem, root, t) && (arena.Exhausted() || Deep(t, dsts[k]))
      ensures Blocked(dsts, t)
    {
      hide Arena.Exhausted, Stored, Sound;
    }

    /** After a publication: a short log, and nothing leaked unless a rebuild of this vertex found no room. */
    twostate predicate Tidy(src: nat)
      reads this, log
    {
      Trim() && (src !in skewed ==> leaked == old(leaked))
    }

    /** Publish a finished chain, or cut its entries from the log when the append fails. */
    method FinishChain(src: U32, root: Option<Slot>, news: seq<U32>, chunksMark: nat, interiorsMark: nat,
                       ghost t: Option<Tree>, ghost added: set<Slot>, ghost lost: set<Slot>, ghost failed: bool,
                       ghost kept: multiset<Slot>)
        returns (r: BatchResult)
      requires Ready(src, root, news, t, added, lost, src in skewed || failed, kept, log.Contents()) && guarded && Leafy()
      requires !failed ==> lost == {}
      modifies this, arena, log, wal
      ensures SameParts() && guarded && retireStamp == old(retireStamp)
      ensures |trees| == |old(trees)| && src < |trees|
      ensures r.Count? ==> Valid() && r.n == |news| && walFailed == old(walFailed)
      ensures r.Count? && news != [] ==> Inserted(src, news) && Tidy(src)
      ensures r.Count? && news == [] ==> Unpublished()
      ensures !r.Count? ==> r == BatchWalAppend && walFailed && news != [] && Unpublished() && Held(kept)
      ensures !r.Count? ==> SpillNeeded(old(Staged()), |news|) && unchanged(arena)
      ensures !r.Count? ==> log.chunks == Cut(old(log.chunks), chunksMark) && log.interiors == Cut(old(log.interiors), interiorsMark)
    {
      hide Arena.Valid, WalWriter.Valid, State, Meaning, Recorded, TableMatches, RetireLog.Contents, RElems, Gains, VertexBounded;
      MeaningLength(numVertices, trees, skewed, numEdges, pendingEdges, latest.numEdges, touched);
      if news == [] {
        leaked := leaked + added;
        return Count(0);
      }
      var ok := LogAndStore(src, root, news, t, src in skewed || failed);
      if ok {
        leaked := leaked + lost;
        MaybeStampRetired();
        return Count(|news|);
      }
      TruncateLog(chunksMark, interiorsMark);
      leaked := leaked + added;
      return BatchWalAppend;
    }

    /** Give a chain up: cut its entries from the log and let its slots leak. */
    method AbandonChain(chunksMark: nat, interiorsMark: nat, ghost src: nat, ghost root: Option<Slot>, ghost news: seq<nat>,
                        ghost t: Option<Tree>, ghost added: set<Slot>, ghost lost: set<Slot>, ghost skew: bool, ghost kept: multiset<Slot>)
      requires Ready(src, root, news, t, added, lost, skew, kept, log.Contents())
      modifies this`leaked, log
      ensures Held(kept) && Unpublished()
      ensures log.chunks == Cut(old(log.chunks), chunksMark) && log.interiors == Cut(old(log.interiors), interiorsMark)
    {
      hide Arena.Valid, WalWriter.Valid, State, Meaning, Recorded, TableMatches, RetireLog.Contents, RElems, Gains, VertexBounded;
      TruncateLog(chunksMark, interiorsMark);
      leaked := leaked + added;
    }

    /** A batch that ends with an error, the retire log cut back. */
    predicate Refused(r: BatchResult) {
      r == BatchFull || r == BatchWalAppend
    }

    /** What a panicking chain allocated is leaked. */
    method GiveUp(ghost added: set<Slot>, ghost kept: multiset<Slot>)
      requires Upheld(added, kept)
      modifies this`leaked
      ensures Held(kept) && Unpublished()
    {
      hide Arena.Valid, WalWriter.Valid, State, Meaning, Recorded, TableMatches;
      leaked := leaked + added;
    }

    /**
     * Chain once, then publish; a chain that finds no room, or whose append fails, is cut from the log.
     * `again` is what the log held before the cut.
     */
    method ChainOnce(src: U32, dsts: seq<U32>, chunksMark: nat, interiorsMark: nat)
        returns (r: BatchResult, ghost news: seq<U32>, ghost again: Entries, ghost stuck: Option<Tree>)
      requires Valid() && guarded && !walFailed && src < numVertices && forall x :: x in dsts ==> x < numVertices
      modifies this, arena, log, wal
      ensures SameParts() && guarded && retireStamp == old(retireStamp)
      ensures |trees| == |old(trees)| && src < |trees|
      ensures walFailed <==> r == BatchWalAppend
      ensures r == BatchWalAppend ==> SpillNeeded(old(Staged()), |news|)
      ensures r.Count? || r == BatchPanicked || Refused(r)
      ensures r == BatchPanicked ==> Unpublished() && Held(old(log.Contents())) && Collapsed(dsts, stuck)
      ensures r == BatchPanicked ==> !Calm(old(trees)[src], |dsts|)
      ensures r.Count? ==> Valid() && r.n == |news| && NewOnes(old(trees)[src], dsts, news)
      ensures r.Count? ==> if news == [] then Unpublished() else Inserted(src, news) && Tidy(src)
      ensures Refused(r) ==> Unpublished() && Held(old(log.Contents())) && LogCut(again, chunksMark, interiorsMark)
      ensures Refused(r) ==> old(log.chunks) <= again.chunks && old(log.interiors) <= again.interiors
      ensures Refused(r) && old(log.chunks) == [] ==> Superseded(src, news, again)
      ensures r == BatchFull ==> Blocked(dsts, stuck) && SameStarts() && Staged() == old(Staged())
      ensures Outnumbered(old(arena.Supply()), old(trees)[src], dsts) ==> r == BatchFull || r == BatchPanicked
      ensures r == BatchFull && old(arena.Supply()).idle && ChunkBytes(old(arena.Supply())) < CHUNK_SLOT ==> arena.Supply() == old(arena.Supply())
      ensures r != BatchPanicked && dsts != [] && FirstFits(old(arena.Supply()), old(trees)[src], dsts[0]) ==> news != []
    {
      hide Valid, Held, Ready, Consistent, RElems, Gains, VertexBounded, LiveFirst, NewOnes, Blocked, Collapsed, Superseded, Upheld, Outnumbered, FirstFits;
      hide Arena.Supply, Leaner, ChunkBytes, SpillNeeded, Gains, Arena.Exhausted, RetireLog.Contents, Calm, Overruns;
      ghost var s0, kept, was := arena.Supply(), log.Contents(), Entries(log.chunks, log.interiors);
      Leafed();
      var full, over, root, ns, t, added, lost, failed := ChainAttempt(src, dsts);
      news, again, stuck := ns, Entries(log.chunks, log.interiors), t;
      if over {
        GiveUp(added, kept);
        return BatchPanicked, news, again, stuck;
      }
      ChainLogged(src, root, ns, t, added, lost, src in skewed || failed, kept, was);
      NotAll(s0, arena.Supply(), trees[src], dsts, news, full);
      if full {
        AbandonChain(chunksMark, interiorsMark, src, root, ns, t, added, lost, src in skewed || failed, kept);
        return BatchFull, news, again, stuck;
      }
      r := FinishChain(src, root, ns, chunksMark, interiorsMark, t, added, lost, failed, kept);
    }

    /** The log is the front of `again`. */
    ghost predicate LogCut(again: Entries, chunksMark: nat, interiorsMark: nat)
      reads log
    {
      log.chunks == Cut(again.chunks, chunksMark) && log.interiors == Cut(again.interiors, interiorsMark)
    }

    /**
     * What a chain logged: slots in use, the first of them the published leaf it replaced. Where nothing
     * was published, all of them are slots of the chain's own.
     */
    ghost predicate Superseded(src: nat, news: seq<nat>, again: Entries)
      reads this`trees, this`arena, arena`inUse
    {
      && src < |trees|
      && Bag(again.chunks, again.interiors) <= multiset(arena.inUse)
      && (again.interiors != [] ==> again.chunks != [])
      && (news == [] ==> again.chunks == [])
      && if trees[src].None? then forall s :: s in Bag(again.chunks, again.interiors) ==> s !in LiveBag(trees)
         else news != [] ==> again.chunks != [] && ChunkSlot(again.chunks[0]) in RSlots(trees[src])
    }

    lemma Leafed()
      requires Valid()
      ensures Leafy() && Held(log.Contents())
    {
      hide Held;
    }

    lemma ChainLogged(src: nat, root: Option<Slot>, news: seq<nat>, t: Option<Tree>, added: set<Slot>, lost: set<Slot>, skew: bool,
                      kept: multiset<Slot>, was: Entries)
      requires Ready(src, root, news, t, added, lost, skew, kept, log.Contents())
      requires was.interiors != [] ==> was.chunks != []
      requires was.chunks == [] ==> Leafy()
      requires news == [] ==> log.chunks == was.chunks && log.interiors == was.interiors
      requires news != [] ==> LiveFirst(was.chunks, log.chunks, trees[src])
      ensures was.chunks == [] ==> Superseded(src, news, Entries(log.chunks, log.interiors))
    {
      hide Arena.Valid, WalWriter.Valid, Consistent, Stamps, Gains, VertexBounded, LiveBag, Rooted, Bag;
      LoggedApart(arena.inUse, trees, src, t, log.Contents(), leaked + lost);
    }

    /**
     * The batch of one source, as a chain of path copies published once. A chain that finds no room is
     * taken back from the log, the log is stamped, and the chain tried once more.
     *
     * The lengths the log is cut back to are those from before the first try. Stamping empties the
     * log, so after a second failure they are stale: `again`, what the second chain logged, is cut to
     * them, and what remains stays logged though its tree is still published.
     */
    method InsertSortedByPathCopy(src: U32, dsts: seq<U32>)
        returns (r: BatchResult, ghost news: seq<U32>, ghost again: Option<Entries>, ghost stuck: Option<Tree>)
      requires Valid() && guarded && !walFailed && src < numVertices && forall x :: x in dsts ==> x < numVertices
      modifies this, arena, log, wal
      ensures SameParts() && guarded && retireStamp == old(retireStamp)
      ensures |trees| == |old(trees)| && src < |trees|
      ensures walFailed <==> r == BatchWalAppend
      ensures r == BatchWalAppend ==> SpillNeeded(old(Staged()), |news|)
      ensures r.Count? || r == BatchPanicked || Refused(r)
      ensures r == BatchPanicked ==> Unpublished() && Whole() && Collapsed(dsts, stuck) && !Calm(old(trees)[src], |dsts|)
      ensures r.Count? ==> Valid() && r.n == |news| && NewOnes(old(trees)[src], dsts, news)
      ensures r.Count? ==> if news == [] then Unpublished() else Inserted(src, news) && Trim()
      ensures r.Count? && news != [] && again.None? ==> Tidy(src)
      ensures Refused(r) ==> Unpublished()
      ensures Refused(r) && again.None? ==> Valid() && log.chunks == old(log.chunks) && log.interiors == old(log.interiors)
      ensures Refused(r) && again.Some? ==> Stranded(src, news, again.value, |old(log.chunks)|, |old(log.interiors)|)
      ensures r == BatchFull ==> Blocked(dsts, stuck) && again.Some?
      ensures old(Starved(src, dsts)) ==> r == BatchPanicked || (r == BatchFull && again.Some? && news != [])
    {
      hide Valid, Held, RElems, Gains, NewOnes, Blocked, Collapsed, Calm, Superseded, Outnumbered, FirstFits, Stranded;
      hide Arena.Supply, ChunkBytes, SpillNeeded, Arena.Quiet;
      var chunksMark, interiorsMark := |log.chunks|, |log.interiors|;
      Leafed();
      ghost var e;
      r, news, e, stuck := ChainOnce(src, dsts, chunksMark, interiorsMark);
      again := None;
      if Refused(r) {
        assert log.chunks == old(log.chunks) && log.interiors == old(log.interiors);
        StillValid(old(log.Contents()));
      }
      if r == BatchFull {
        r, news, e, stuck := RetryChain(src, dsts, chunksMark, interiorsMark);
        again := Some(e);
      }
    }

    /** Stamp the log, and chain again with lengths from before. */
    method RetryChain(src: U32, dsts: seq<U32>, chunksMark: nat, interiorsMark: nat)
        returns (r: BatchResult, ghost news: seq<U32>, ghost again: Entries, ghost stuck: Option<Tree>)
      requires Valid() && guarded && !walFailed && src < numVertices && forall x :: x in dsts ==> x < numVertices
      requires chunksMark == 0 ==> interiorsMark == 0
      modifies this, arena, log, wal
      ensures SameParts() && guarded && retireStamp == old(retireStamp)
      ensures |trees| == |old(trees)| && src < |trees|
      ensures walFailed <==> r == BatchWalAppend
      ensures r == BatchWalAppend ==> SpillNeeded(old(Staged()), |news|)
      ensures r.Count? || r == BatchPanicked || Refused(r)
      ensures r == BatchPanicked ==> Unpublished() && Whole() && Collapsed(dsts, stuck) && !Calm(old(trees)[src], |dsts|)
      ensures r.Count? ==> Valid() && r.n == |news| && NewOnes(old(trees)[src], dsts, news)
      ensures r.Count? ==> if news == [] then Unpublished() else Inserted(src, news) && Trim()
      ensures Refused(r) ==> Unpublished() && Stranded(src, news, again, chunksMark, interiorsMark)
      ensures r == BatchFull ==> Blocked(dsts, stuck)
      ensures old(arena.Supply()).idle && old(arena.Young(log)) && arena.Quiet() && dsts != [] && src < |old(trees)|
              && FirstFits(old(Stamped()), old(trees)[src], dsts[0]) && Outnumbered(old(Stamped()), old(trees)[src], dsts)
              ==> r == BatchPanicked || (r == BatchFull && news != [])
    {
      hide Valid, Held, RElems, Gains, NewOnes, Blocked, Collapsed, Calm, Superseded, Outnumbered, FirstFits, Stranded;
      hide Arena.Supply, Stamped, ChunkBytes, SpillNeeded, Arena.Young, Arena.Quiet;
      Restamp();
      r, news, again, stuck := ChainOnce(src, dsts, chunksMark, interiorsMark);
      if Refused(r) {
        Settle(src, news, again, chunksMark, interiorsMark);
      }
    }

    /**
     * Before the call: no chunk is to be had, no reader is in the gate, and stamping the log, all of it
     * the guard's own, frees room for the first destination but not for all of them.
     */
    ghost predicate Starved(src: nat, dsts: seq<nat>)
      reads this, arena, log
    {
      && arena.Supply().idle && ChunkBytes(arena.Supply()) < CHUNK_SLOT && arena.Quiet() && arena.Young(log)
      && src < |trees| && dsts != [] && FirstFits(Stamped(), trees[src], dsts[0])
      && Outnumbered(arena.Supply(), trees[src], dsts) && Outnumbered(Stamped(), trees[src], dsts)
    }

    /** What a second failure leaves: either all is well, or all but the log, and exactly when which. */
    ghost predicate Stranded(src: nat, news: seq<nat>, again: Entries, chunksMark: nat, interiorsMark: nat)
      requires src < |trees|
      reads this, arena, log, wal
    {
      && LogCut(again, chunksMark, interiorsMark) && Leafy()
      && (Harmed() <==> chunksMark > 0 && trees[src].Some? && news != [])
      && if Harmed() then Held(multiset{}) && log.Contents() <= multiset(arena.inUse) else Valid()
    }

    lemma StillValid(kept: multiset<Slot>)
      requires Held(kept) && log.Contents() == kept && Leafy()
      ensures Valid()
    {
      hide Held;
    }

    /** The entries that survive the cut do harm exactly when the first of them is a published leaf. */
    lemma HarmIff(src: nat, news: seq<nat>, again: Entries, chunksMark: nat, interiorsMark: nat)
      requires Superseded(src, news, again) && LogCut(again, chunksMark, interiorsMark)
      requires chunksMark == 0 ==> interiorsMark == 0
      ensures Leafy() && log.Contents() <= multiset(arena.inUse)
      ensures Harmed() <==> chunksMark > 0 && trees[src].Some? && news != []
    {
      hide LiveBag, RSlots, Bag;
      CutBag(again, chunksMark, interiorsMark);
      BagEmpty(log.chunks, log.interiors);
      if chunksMark > 0 && trees[src].Some? && news != [] {
        assert log.chunks[0] == again.chunks[0];
        BagHas(log.chunks, log.interiors, 0);
        LiveHas(trees, src, ChunkSlot(log.chunks[0]));
      }
    }

    /** What no published tree reaches was leaked, and is logged instead. */
    method Settle(ghost src: nat, ghost news: seq<nat>, ghost again: Entries, ghost chunksMark: nat, ghost interiorsMark: nat)
      requires src < |trees| && Held(multiset{}) && Superseded(src, news, again) && LogCut(again, chunksMark, interiorsMark)
      requires chunksMark == 0 ==> interiorsMark == 0
      modifies this`leaked
      ensures src < |trees| && Stranded(src, news, again, chunksMark, interiorsMark)
    {
      hide Arena.Valid, WalWriter.Valid, Meaning, Recorded, TableMatches, State, Superseded, LogCut, Bag;
      HarmIff(src, news, again, chunksMark, interiorsMark);
      if !Harmed() {
        Unleak(arena.mem, arena.inUse, roots, trees, log.Contents(), leaked);
        leaked := leaked - Members(log.Contents(), leaked);
      }
    }

    /** A valid graph is not harmed. */
    lemma ValidUnharmed()
      requires Valid()
      ensures !Harmed()
    {
      hide Arena.Valid, Consistent, LiveBag, Rooted, Bag;
      forall s | s in log.Contents() ensures s !in LiveBag(trees) {
        NoTwice(arena.inUse, LiveBag(trees), log.Contents() + multiset(leaked), s);
      }
    }

    /**
     * The next stamp of a harmed log hands a slot to the queues, to be freed and rewritten, while the
     * tree that reaches it is still published.
     */
    method StampHarmed() returns (ghost s: Slot)
      requires Held(multiset{}) && guarded && Harmed() && log.Contents() <= multiset(arena.inUse)
      modifies arena, log
      ensures arena.Valid() && s in arena.PendingBag() && s !in arena.inUse
      ensures s in LiveBag(trees) && Rooted(arena.mem, roots, trees) && log.Contents() == multiset{}
    {
      hide Arena.Valid, Consistent, LiveBag, Bag, QueueBag, Arena.Stamped, Enqueue, RootAt;
      s :| s in log.Contents() && s in LiveBag(trees);
      BagEmpty([], []);
      BagEmpty(log.chunks, log.interiors);
      arena.StampLog(log, retireStamp);
    }

    /** Build the merged list off to the side, with one retry after stamping the log. */
    method BuildMerged(merged: seq<nat>, ghost src: nat) returns (root: Option<Slot>, ghost t: Tree, ghost added: set<Slot>)
      requires Valid() && guarded && merged != [] && Ascending(merged) && src < |trees|
      modifies arena, log, this`leaked
      ensures Unpublished() && src < |trees| == |roots| && SameStarts()
      ensures root.None? ==> Valid() && arena.Exhausted() && log.chunks == [] && log.interiors == []
      ensures Bare(old(arena.Supply())) && old(arena.Supply()).gap >= BuildBytes(|merged|) ==>
        root.Some? && unchanged(log) && Bumped(old(arena.Supply()), arena.Supply(), BuildBytes(|merged|))
      ensures root.Some? ==>
        && Leafy() && Shaped(t, merged)
        && Built(arena.mem, t, merged) && t.slot == root.value
        && arena.Valid() && Consistent() && arena.lastStamp <= retireStamp
        && RootAt(arena.mem, roots[src], trees[src])
        && State(arena.mem, arena.inUse, roots, trees, log.Contents(), leaked + added)
        && State(arena.mem, arena.inUse, roots[src := root], trees[src := Some(t)],
                 log.Contents() + multiset(RSlots(trees[src])), leaked)
    {
      hide Arena.Valid, WalWriter.Valid, State, Meaning, Recorded, TableMatches, RetireLog.Contents, Grown, Built, RSlots, RootAt;
      hide Shaped, Arena.Supply, Bare, Bumped, BuildTook, Leaner, BuildBytes, Stamped, Arena.Young, Arena.Quiet;
      StateLength(arena.mem, arena.inUse, roots, trees, log.Contents(), leaked);
      ghost var m0, u0 := arena.mem, arena.inUse;
      ghost var s0 := arena.Supply();
      root, t, added := BuildBalanced(arena, merged);
      BareBuild(s0, arena.Supply(), |merged|, root.Some?);
      if root.None? {
        Leak(m0, u0, arena.mem, arena.inUse, added, roots, trees, log.Contents(), leaked);
        leaked := leaked + added;
        Restamp();
        m0, u0 := arena.mem, arena.inUse;
        root, t, added := BuildBalanced(arena, merged);
      }
      Leak(m0, u0, arena.mem, arena.inUse, added, roots, trees, log.Contents(), leaked);
      if root.None? {
        leaked := leaked + added;
      } else {
        PublishBuilt(m0, u0, arena.mem, arena.inUse, added, roots, trees, log.Contents(), leaked, src, t, merged);
      }
    }

    /** Log every node of a tree, if there is one. */
    method RetireTree(root: Option<Slot>, ghost t: Option<Tree>)
      requires RootAt(arena.mem, root, t) && RSteps(t) <= MAX_DEPTH
      modifies log
      ensures log.Contents() == old(log.Contents()) + multiset(RSlots(t)) && (old(Leafy()) ==> Leafy())
    {
      hide Stored, Apart, Ordered, Slots, Bag;
      if root.Some? {
        var _, _ := RetireSubtree(arena.mem, root.value, log, t.value);
      }
    }

    /** Publish the merged rebuild and log every node of the tree it superseded. */
    method FinishRebuild(src: U32, root: Slot, news: seq<U32>, ghost t: Tree, ghost added: set<Slot>) returns (r: BatchResult)
      requires src < |trees| && Ready(src, Some(root), news, Some(t), added, {}, false, log.Contents(),
                                      log.Contents() + multiset(RSlots(trees[src])))
      requires guarded && !walFailed && news != [] && Leafy()
      requires RootAt(arena.mem, roots[src], trees[src]) && RSteps(trees[src]) <= MAX_DEPTH
      modifies this, arena, log, wal
      ensures Valid() && SameParts() && guarded && retireStamp == old(retireStamp)
      ensures |trees| == |old(trees)| && src < |trees|
      ensures walFailed <==> r == BatchWalAppend
      ensures r == BatchWalAppend ==> SpillNeeded(old(Staged()), |news|)
      ensures r == Count(|news|) || r == BatchWalAppend
      ensures r.Count? ==> Inserted(src, news) && trees[src] == Some(t) && Trim() && leaked == old(leaked)
      ensures r.Count? && old(|log.chunks| + |log.interiors| + |RSlots(trees[src])|) < RETIRE_LOG_CAP - HEADROOM ==>
        unchanged(arena) && log.Contents() == old(log.Contents()) + multiset(RSlots(old(trees)[src]))
      ensures !r.Count? ==> Unpublished()
    {
      hide Arena.Valid, WalWriter.Valid, State, Meaning, Recorded, TableMatches, Bag, RElems, Gains, VertexBounded, Stored, Sound, Slots;
      MeaningLength(numVertices, trees, skewed, numEdges, pendingEdges, latest.numEdges, touched);
      var oldRoot := roots[src];
      ghost var oldTree := trees[src];
      var ok := LogAndStore(src, Some(root), news, Some(t), false);
      if !ok {
        leaked := leaked + added;
        return BatchWalAppend;
      }
      assert leaked + {} == leaked;
      BagSize(log.chunks, log.interiors);
      RetireTree(oldRoot, oldTree);
      BagSize(log.chunks, log.interiors);
      MaybeStampRetired();
      return Count(|news|);
    }

    /** Build the merged list and publish it, if it finds room. */
    method PublishMerged(src: U32, merged: seq<nat>, news: seq<U32>) returns (r: BatchResult)
      requires Valid() && guarded && !walFailed && src < numVertices && Ascending(merged) && news != []
      requires src < |trees| && |merged| == |RElems(trees[src])| + |news| && forall x :: x in news ==> x < numVertices
      requires RSteps(trees[src]) <= MAX_DEPTH
      requires forall x :: x in merged <==> x in RElems(trees[src]) || x in news
      requires forall x :: x in news ==> x !in RElems(trees[src])
      modifies this, arena, log, wal
      ensures Valid() && SameParts() && guarded && retireStamp == old(retireStamp)
      ensures |trees| == |old(trees)| && src < |trees|
      ensures walFailed <==> r == BatchWalAppend
      ensures r == BatchWalAppend ==> SpillNeeded(old(Staged()), |news|)
      ensures r == Count(|news|) || r == BatchFull || r == BatchWalAppend
      ensures if r.Count? then Inserted(src, news) && Trim() else Unpublished()
      ensures r == BatchFull ==> arena.Exhausted() && log.chunks == [] && log.interiors == []
      ensures old(HasRoom(src, |merged|)) ==> r.Count? && RebuiltIn(src, |merged|)
    {
      hide Arena.Valid, WalWriter.Valid, State, Meaning, Recorded, TableMatches, RetireLog.Contents, Built, RSlots;
      hide Ascending, VertexBounded, Gains, RElems, Arena.Supply, Bare, Bumped, BuildBytes, Shaped, RootAt, RSteps;
      MeaningLength(numVertices, trees, skewed, numEdges, pendingEdges, latest.numEdges, touched);
      var root, t, f := BuildMerged(merged, src);
      if root.None? {
        return BatchFull;
      }
      BuiltGains(arena.mem, trees[src], t, merged, news);
      assert leaked + {} == leaked;
      r := FinishRebuild(src, root.value, news, t, f);
    }

    /** The elements of a vertex in range; a tree with too many left turns for the traversal's stack panics. */
    method Existing(src: nat) returns (ok: bool, existing: seq<nat>)
      requires Valid() && src < numVertices
      ensures src < |trees| && (ok <==> RSteps(trees[src]) <= MAX_DEPTH)
      ensures ok ==> existing == RElems(trees[src]) && Ascending(existing)
    {
      hide Arena.Valid, WalWriter.Valid, State, Meaning, Recorded, TableMatches, RetireLog.Contents, LeftSteps, Ascending;
      MeaningLength(numVertices, trees, skewed, numEdges, pendingEdges, latest.numEdges, touched);
      StateAt(arena.mem, arena.inUse, roots, trees, log.Contents(), leaked, src);
      RootAscending(arena.mem, roots[src], trees[src]);
      ok, existing := true, [];
      if roots[src].Some? {
        var whole, collected, _ := CollectInto(arena.mem, roots[src].value, [], trees[src].value);
        ok, existing := whole, collected;
      }
    }

    /** The batch of one source, merged with its neighbours and rebuilt in one pass. */
    method InsertSortedByRebuild(src: U32, dsts: seq<U32>) returns (r: BatchResult, ghost news: seq<U32>)
      requires Valid() && guarded && !walFailed && src < numVertices && forall x :: x in dsts ==> x < numVertices
      requires Ascending(dsts)
      modifies this, arena, log, wal
      ensures Valid() && SameParts() && guarded && retireStamp == old(retireStamp)
      ensures |trees| == |old(trees)| && src < |trees|
      ensures walFailed <==> r == BatchWalAppend
      ensures r == BatchWalAppend ==> SpillNeeded(old(Staged()), |news|)
      ensures r.Count? || r == BatchPanicked || Refused(r)
      ensures r == BatchPanicked <==> RSteps(old(trees)[src]) > MAX_DEPTH
      ensures r.Count? ==> r.n == |news| && NewOnes(old(trees)[src], dsts, news)
      ensures r.Count? ==> if news == [] then Unpublished() else Inserted(src, news) && Trim()
      ensures !r.Count? ==> Unpublished()
      ensures r == BatchFull ==> arena.Exhausted() && log.chunks == [] && log.interiors == []
      ensures old(Spacious(src, dsts))
              ==> r.Count? && RebuiltIn(src, |RElems(old(trees)[src])| + |dsts|)
    {
      hide Arena.Valid, WalWriter.Valid, State, Meaning, Recorded, TableMatches, RetireLog.Contents, Built, RSlots;
      hide Ascending, VertexBounded, Gains, Arena.Supply, Bare, Bumped, BuildBytes, Shaped, LeftSteps;
      MeaningLength(numVertices, trees, skewed, numEdges, pendingEdges, latest.numEdges, touched);
      var whole, existing := Existing(src);
      if !whole {
        return BatchPanicked, [];
      }
      var merged, added := MergeNew(existing, dsts);
      MergedSize(existing, dsts, merged);
      forall k | 0 <= k < |added| ensures added[k] < numVertices { assert added[k] in added; }
      news := added;
      if added == [] {
        return Count(0), news;
      }
      r := PublishMerged(src, merged, added);
    }

    /** Before the call: no log to write, and bare room to rebuild `src` with `n` elements. */
    ghost predicate HasRoom(src: nat, n: nat)
      reads this, arena, log
    {
      && wal == null && src < |trees| && Bare(arena.Supply()) && arena.Supply().gap >= BuildBytes(n)
      && |log.chunks| + |log.interiors| + |RSlots(trees[src])| < RETIRE_LOG_CAP - HEADROOM && RSteps(trees[src]) <= MAX_DEPTH
    }

    /** There is room for all of `dsts`, none of which is there yet. */
    ghost predicate Spacious(src: nat, dsts: seq<nat>)
      reads this, arena, log
    {
      && src < |trees| && dsts != [] && (forall x :: x in dsts ==> x !in RElems(trees[src]))
      && HasRoom(src, |RElems(trees[src])| + |dsts|)
    }

    /** The rebuilt tree has the one shape of its `n` elements and took its exact bytes; the old one is logged. */
    twostate predicate RebuiltIn(src: nat, n: nat)
      requires src < |old(trees)| && src < |trees|
      reads this, arena, log
    {
      && SameStarts() && trees[src].Some? && Shaped(trees[src].value, RElems(trees[src]))
      && Bumped(old(arena.Supply()), arena.Supply(), BuildBytes(n))
      && log.Contents() == old(log.Contents()) + multiset(RSlots(old(trees)[src]))
    }

    // -- Choosing a strategy --------------------------------------------------------------

    /** Unless a second chain failed the graph is valid; if one did, all but its log may be. */
    ghost predicate Recoverable(src: nat, news: seq<nat>, again: Option<Entries>, chunksMark: nat, interiorsMark: nat)
      reads this, arena, log, wal
    {
      if again.None? then Valid() else src < |trees| && Stranded(src, news, again.value, chunksMark, interiorsMark)
    }

    /** The batch is in: the new neighbours are the old ones and `dsts`, of which `news` were new. */
    twostate predicate BatchDone(src: U32, new dsts: seq<U32>, new news: seq<U32>)
      requires src < |old(trees)| && src < |trees|
      reads this, wal
    {
      && NewOnes(old(trees)[src], dsts, news) && BatchMeans(old(trees)[src], trees[src], dsts, |news|)
      && if news == [] then Unpublished() else Inserted(src, news)
    }

    /** Why a batch panicked: a tree its chain had reached, or the published one, was too much for a traversal. */
    ghost predicate Fallen(src: nat, dsts: seq<nat>, stuck: Option<Tree>)
      reads this`trees, this`arena, arena
    {
      Collapsed(dsts, stuck) || (src < |trees| && RSteps(trees[src]) > MAX_DEPTH)
    }

    lemma ValidWhole()
      requires Valid()
      ensures Whole()
    {
      hide Held;
    }

    method InsertBatch(src: U32, dsts: seq<U32>)
        returns (r: BatchResult, ghost news: seq<U32>, ghost again: Option<Entries>, ghost stuck: Option<Tree>)
      requires Valid() && guarded && !walFailed && src < numVertices && forall x :: x in dsts ==> x < numVertices
      requires Ascending(dsts)
      modifies this, arena, log, wal
      ensures SameParts() && guarded && retireStamp == old(retireStamp)
      ensures |trees| == |old(trees)| && src < |trees|
      ensures walFailed <==> r == BatchWalAppend
      ensures r == BatchWalAppend ==> SpillNeeded(old(Staged()), |news|)
      ensures r.Count? || r == BatchPanicked || Refused(r)
      ensures r == BatchPanicked ==> Unpublished() && Whole() && Fallen(src, dsts, stuck) && !Calm(old(trees)[src], |dsts|)
      ensures r.Count? ==> Valid() && r.n == |news| && BatchDone(src, dsts, news) && (news != [] ==> Trim())
      ensures PreferPathCopy(|RElems(old(trees)[src])|, |dsts|) && r.Count? && news != [] && again.None? ==> Tidy(src)
      ensures Refused(r) ==> Unpublished() && Recoverable(src, news, again, |old(log.chunks)|, |old(log.interiors)|)
      ensures r == BatchFull ==> Blocked(dsts, stuck) && (again.None? ==> log.chunks == [] && log.interiors == [])
      ensures again.Some? ==> old(trees)[src].Some?
      ensures PreferPathCopy(|RElems(old(trees)[src])|, |dsts|) && old(Starved(src, dsts))
              ==> r == BatchPanicked || (r == BatchFull && again.Some? && news != [])
      ensures !PreferPathCopy(|RElems(old(trees)[src])|, |dsts|) && old(Spacious(src, dsts))
              ==> r.Count? && RebuiltIn(src, |RElems(old(trees)[src])| + |dsts|)
    {
      hide Valid, Stranded, Deep, Arena.Exhausted, Stored, RElems, Gains, Ascending, NewOnes, BatchMeans;
      hide Starved, Spacious, PreferPathCopy, Shaped, Bumped, BuildBytes, Arena.Supply, Bag, RSlots, Calm, Collapsed, RSteps, Held;
      var degree := Degree(src);
      PathCopyNeedsTree(trees[src], |dsts|);
      again, stuck := None, None;
      if PreferPathCopy(degree, |dsts|) {
        r, news, again, stuck := InsertSortedByPathCopy(src, dsts);
      } else {
        r, news := InsertSortedByRebuild(src, dsts);
        ValidWhole();
        if r == BatchPanicked {
          TooTall(old(trees)[src], |dsts|);
        }
      }
      if r.Count? {
        if news == [] {
          NoneNew(trees[src], dsts);
        } else {
          GainsBatch(old(trees)[src], trees[src], dsts, news);
        }
      }
    }

    /** The element count the root records. */
    method Degree(src: nat) returns (n: nat)
      requires Valid() && src < numVertices
      ensures src < |trees| && n == |RElems(trees[src])| && Ascending(RElems(trees[src]))
    {
      hide Arena.Valid, WalWriter.Valid, State, Meaning, Recorded, TableMatches, RetireLog.Contents, RElems;
      Lengths();
      StateAt(arena.mem, arena.inUse, roots, trees, log.Contents(), leaked, src);
      RootSize(arena.mem, roots[src], trees[src]);
      n := if roots[src].Some? then SubtreeSize(arena.mem, roots[src].value) else 0;
    }

    /**
     * Insert every edge from `src` to `dsts`, publishing one new tree. Whichever strategy the sizes
     * pick, the outcome is the same. A failure keeps the graph valid, or does harm: that is when the log
     * was not empty, a chain failed twice, and the second try had inserted something. A panic leaves every
     * published tree whole.
     */
    method InsertEdgesSorted(src: U32, dsts: seq<U32>)
        returns (r: BatchResult, ghost news: seq<U32>, ghost again: Option<Entries>, ghost stuck: Option<Tree>)
      requires Valid() && guarded && Ascending(dsts)
      modifies this, arena, log, wal
      ensures SameParts() && guarded && retireStamp == old(retireStamp) && |trees| == |old(trees)| == numVertices
      ensures r.BatchOutOfRange? <==> dsts != [] && (src >= numVertices || dsts[|dsts| - 1] >= numVertices)
      ensures r.BatchOutOfRange? ==> r.src == src && r.dst in dsts && (src < numVertices ==> r.dst >= numVertices)
      ensures r.Count? ==> Valid() && r.n == |news| && (news != [] ==> Trim())
      ensures r.Count? ==> if dsts == [] then r.n == 0 && Unpublished() else src < numVertices && BatchDone(src, dsts, news)
      ensures !r.Count? ==> Unpublished()
      ensures r == BatchPanicked ==> Whole() && src < numVertices && !walFailed && Fallen(src, dsts, stuck) && !Calm(trees[src], |dsts|)
      ensures !r.Count? && r != BatchPanicked ==> Recoverable(src, news, again, |old(log.chunks)|, |old(log.interiors)|)
      ensures r != BatchPanicked ==> (Harmed() <==> !r.Count? && again.Some? && news != [] && old(log.chunks) != [])
      ensures r != BatchPanicked ==> if Harmed() then Held(multiset{}) && log.Contents() <= multiset(arena.inUse) else Valid()
      ensures r == BatchWalAppend ==> walFailed && (!old(walFailed) ==> SpillNeeded(old(Staged()), |news|))
      ensures r == BatchFull ==> Blocked(dsts, stuck) && walFailed == old(walFailed) && (again.None? ==> log.chunks == [] && log.interiors == [])
      ensures src < numVertices && InReach(dsts) && !old(walFailed) && PreferPathCopy(|RElems(old(trees)[src])|, |dsts|)
              && old(Starved(src, dsts)) && Calm(old(trees)[src], |dsts|)
              ==> r == BatchFull && Harmed()
      ensures src < numVertices && InReach(dsts) && !old(walFailed) && !PreferPathCopy(|RElems(old(trees)[src])|, |dsts|) && old(Spacious(src, dsts))
              ==> r.Count? && RebuiltIn(src, |RElems(old(trees)[src])| + |dsts|) && walFailed == old(walFailed)
      ensures r.Count? && news != [] && again.None? && old(ByPathCopy(src, dsts)) ==> Tidy(src)
    {
      hide Valid, Held, BatchDone, Stranded, Ascending, Blocked, Starved, Spacious, RebuiltIn, PreferPathCopy, Harmed, RElems, Calm, Fallen, Tidy, Trim;
      again, news, stuck := None, [], None;
      Lengths();
      ValidUnharmed();
      if dsts == [] {
        return Count(0), news, again, stuck;
      }
      if src >= numVertices {
        return BatchOutOfRange(src, dsts[0]), news, again, stuck;
      }
      if dsts[|dsts| - 1] >= numVertices {
        var bad := FirstAtLeast(dsts, numVertices);
        return BatchOutOfRange(src, dsts[bad]), news, again, stuck;
      }
      AllInRange(dsts, numVertices);
      if walFailed {
        return BatchWalAppend, news, again, stuck;
      }
      StarvedLogged(src, dsts);
      r, news, again, stuck := InsertBatch(src, dsts);
      if r == BatchPanicked {
        return;
      }
      HarmedWhen(r, src, news, again, |old(log.chunks)|, |old(log.interiors)|);
    }

    /** The sizes send the batch down the path-copy chain. */
    ghost predicate ByPathCopy(src: nat, dsts: seq<nat>)
      reads this`trees
    {
      src < |trees| && PreferPathCopy(|RElems(trees[src])|, |dsts|)
    }

    /** The last destination, which is the largest, is a vertex. */
    ghost predicate InReach(dsts: seq<nat>) {
      dsts != [] && dsts[|dsts| - 1] < numVertices
    }

    lemma StarvedLogged(src: nat, dsts: seq<nat>)
      ensures Starved(src, dsts) ==> log.chunks != []
    {
      hide RElems, Deep, Outnumbered, Arena.Quiet, Arena.Young;
      if Starved(src, dsts) && log.chunks == [] {
        SmallRoom(Stamped(), trees[src], dsts[0]);
      }
    }

    /** What a batch leaves, in terms of what its caller knows. */
    lemma HarmedWhen(r: BatchResult, src: nat, news: seq<nat>, again: Option<Entries>, chunksMark: nat, interiorsMark: nat)
      requires src < |trees| && r != BatchPanicked && (r.Count? ==> Valid())
      requires !r.Count? ==> Recoverable(src, news, again, chunksMark, interiorsMark)
      requires !r.Count? && again.Some? ==> trees[src].Some?
      ensures Harmed() <==> !r.Count? && again.Some? && news != [] && chunksMark > 0
      ensures if Harmed() then Held(multiset{}) && log.Contents() <= multiset(arena.inUse) else Valid()
    {
      hide Valid, Held, LogCut, Harmed;
      if Valid() {
        ValidUnharmed();
      }
    }

    // -- Commit -----------------------------------------------------------------------------

    /** The latest snapshot is the live graph: every root, and the sum of the degrees. */
    ghost predicate Current()
      reads this
    {
      && Shape(latest.top) && |roots| <= SPAN * |latest.top|
      && (forall v: nat :: v < |roots| ==> Get(latest.top, v) == roots[v])
      && latest.numEdges == numEdges == EdgeTotal(trees) && pendingEdges == 0
    }

    /** Make the log durable; the answer is whether this guard may publish. */
    method SyncLog(io: seq<WriteOutcome>, synced: bool) returns (ok: bool)
      requires Consistent()
      modifies wal
      ensures Consistent() && (ok ==> !walFailed) && (wal != null && ok ==> wal.Settled())
      ensures wal != null ==> Records() == old(Records())
      ensures !walFailed && (wal == null || (synced && Accepting(io) && |io| >= old(Staged()))) ==> ok
    {
      hide WalWriter.Valid, WalWriter.Settled, Meaning, Recorded, TableMatches;
      ok := !walFailed;
      if wal != null {
        var done, _ := wal.Sync(io, synced);
        ok := ok && done;
      }
    }

    /**
     * Fold the guard's count in, copy the touched leaves of the table, and swap the snapshot in with
     * the new epoch. `ticks` is how far other subsystems have moved the shared clock.
     */
    method PublishCommit(ticks: nat)
      requires Consistent()
      modifies this`numEdges, this`pendingEdges, this`latest, this`epoch, this`touched
      ensures Consistent() && Current() && touched == []
      ensures epoch == old(epoch) + 1 + ticks
      ensures if old(touched) == [] then latest == old(latest) else latest.epoch == epoch
    {
      hide WalWriter.Valid, Meaning, Recorded, Shape, UppersCopied, Get;
      var top := latest.top;
      if touched != [] {
        var leaves := SortDedup(touched);
        forall k | 0 <= k < |leaves| ensures leaves[k] / UPPER < |latest.top| { assert leaves[k] in touched; }
        top := WithLeaves(latest.top, leaves, roots);
        TableRefreshed(latest.top, top, leaves, touched, roots);
      }
      Folded(numVertices, trees, skewed, numEdges, pendingEdges, latest.numEdges, touched);
      numEdges, pendingEdges := numEdges + pendingEdges, 0;
      epoch := epoch + 1 + ticks;
      if touched != [] {
        latest := Snapshot(epoch, numEdges, top);
      }
      touched := [];
    }

    /** Free every batch that is ready. */
    method Reclaim(ghost logged: multiset<Slot>, ghost stamp: nat, ghost grace: nat, ghost minPinned: nat)
      requires arena.Recycling(logged, stamp, grace, minPinned)
      requires arena.Valid() && State(arena.mem, arena.inUse, roots, trees, log.Contents(), leaked)
      modifies arena
      ensures arena.Valid() && State(arena.mem, arena.inUse, roots, trees, log.Contents(), leaked)
      ensures arena.lastStamp == old(arena.lastStamp) && arena.inUse == old(arena.inUse)
      ensures arena.Waiting() && arena.asked == old(arena.asked) + 1 && arena.phase >= old(arena.phase)
      ensures arena.Recycling(logged, stamp, grace, Max(minPinned, arena.readers(old(arena.asked)).minPinned))
    {
      hide Arena.Valid, State, RetireLog.Contents, YoungLeft, OldLeft, Arena.Waiting, Moved, Fate, Arena.FreeBag;
      ghost var m0, young, aged, free, phase0 := arena.mem, arena.pendingYoung, arena.pendingOld, arena.FreeBag(), arena.phase;
      arena.ReclaimNow();
      arena.StillRecycling(logged, stamp, grace, minPinned, arena.readers(arena.asked - 1).minPinned, young, aged, free, phase0);
      Reclaimed(m0, arena.mem, arena.inUse, roots, trees, log.Contents(), leaked);
    }

    /** Stamp what is left in the log, and free what is ready of that and of all before. */
    method StampAndFree(stamp: nat)
      requires arena.Valid() && State(arena.mem, arena.inUse, roots, trees, log.Contents(), leaked) && arena.lastStamp <= stamp
      modifies arena, log
      ensures arena.Valid() && State(arena.mem, arena.inUse, roots, trees, log.Contents(), leaked)
      ensures log.Contents() == multiset{} && arena.lastStamp <= stamp && arena.Waiting()
      ensures arena.Recycling(old(log.Contents()), stamp, old(arena.phase) + 2,
        Max(arena.readers(old(arena.asked)).minPinned, arena.readers(arena.asked - 1).minPinned))
    {
      hide Arena.Valid, State, RetireLog.Contents, Arena.Recycling, Arena.Waiting;
      ghost var logged, grace, answer := log.Contents(), arena.phase + 2, arena.readers(arena.asked);
      StampRetired(stamp);
      Reclaim(logged, stamp, grace, answer.minPinned);
    }

    lemma NoneLeaked(leaked: set<Slot>, u: set<Slot>)
      ensures leaked + Members(multiset{}, u) == leaked
    {
    }

    /** Park the buffers and free the guard. What a failed guard still had logged is never reused. */
    method Release(ghost logged: multiset<Slot>)
      requires arena.Valid() && State(arena.mem, arena.inUse, roots, trees, logged, leaked) && Consistent()
      requires poisoned || arena.lastStamp <= epoch
      modifies log, this`leaked, this`guarded
      ensures leaked == old(leaked) + Members(logged, arena.inUse)
      ensures Valid() && !guarded && log.Contents() == multiset{}
    {
      hide Arena.Valid, State, WalWriter.Valid, Meaning, Recorded, TableMatches, Bag;
      ForgetLog(arena.mem, arena.inUse, roots, trees, logged, leaked);
      BagEmpty([], []);
      leaked := leaked + Members(logged, arena.inUse);
      log.chunks, log.interiors := [], [];
      guarded := false;
    }

    /**
     * Close the guard. The log is made durable first; only then is anything published, and a failure
     * poisons the graph instead. A clean commit leaves a snapshot equal to the live graph. After a failed
     * append even a harmed log is only dropped, and the graph is valid again.
     */
    method Commit(io: seq<WriteOutcome>, synced: bool, ticks: nat)
      requires guarded && (Valid() || (walFailed && Held(multiset{})))
      modifies this, arena, log, wal
      ensures Valid() && SameParts() && !guarded && roots == old(roots) && trees == old(trees)
      ensures wal != null ==> Records() == old(Records())
      ensures old(walFailed) ==> poisoned
      ensures !old(walFailed) && (wal == null || (synced && Accepting(io) && |io| >= old(Staged()))) ==> !poisoned
      ensures poisoned ==> latest == old(latest) && numEdges == old(numEdges)
      ensures !poisoned ==> Current() && touched == [] && epoch == old(epoch) + 1 + ticks && (wal != null ==> wal.Settled())
      ensures !poisoned ==> leaked == old(leaked) && arena.Waiting() && arena.Recycling(old(log.Contents()), epoch, old(arena.phase) + 2,
        Max(arena.readers(old(arena.asked)).minPinned, arena.readers(arena.asked - 1).minPinned))
      ensures poisoned ==> unchanged(arena)
      ensures poisoned && old(Valid()) ==> leaked == old(leaked) + Members(old(log.Contents()), arena.inUse)
      ensures !poisoned ==> if old(touched) == [] then latest == old(latest) else latest.epoch == epoch
    {
      hide Arena.Valid, WalWriter.Valid, State, Meaning, Recorded, TableMatches, RetireLog.Contents, WalWriter.Settled;
      hide Arena.Recycling, Arena.Waiting, Members;
      ghost var logged := if Valid() then log.Contents() else multiset{};
      var durable := SyncLog(io, synced);
      if durable {
        PublishCommit(ticks);
        StampAndFree(epoch);
      } else {
        poisoned := true;
      }
      NoneLeaked(leaked, arena.inUse);
      Release(if durable then log.Contents() else logged);
    }

    /** What the log should hold. */
    lemma Wrecked() returns (logged: multiset<Slot>)
      requires Valid() || Whole()
      ensures Held(logged)
    {
      hide Held;
      if Valid() {
        logged := log.Contents();
      } else {
        logged :| Held(logged);
      }
    }

    /**
     * Close the guard from a panic, between operations or out of one: poison the graph and forget staged
     * records. Published trees are whole, nothing that was logged is ever reused, and the log's file still
     * holds every durable record.
     */
    method DropPanicking()
      requires guarded && (Valid() || Whole())
      modifies this`poisoned, this`guarded, this`leaked, log, wal
      ensures poisoned && !guarded && log.Contents() == multiset{}
      ensures roots == old(roots) && trees == old(trees) && arena.inUse == old(arena.inUse)
      ensures arena.Valid() && State(arena.mem, arena.inUse, roots, trees, log.Contents(), leaked)
      ensures wal != null ==> wal.file <= wal.header + Encode(wal.crc, wal.records) && wal.durable <= |wal.file|
      ensures wal != null ==> wal.buf == [] && Records() == old(Records())
    {
      hide Arena.Valid, State, Meaning, Recorded, TableMatches, Bag, Encode;
      ghost var logged := Wrecked();
      poisoned := true;
      Release(logged);
      BagEmpty([], []);
      if wal != null {
        wal.DiscardPending();
      }
    }

    // -- Reads --------------------------------------------------------------------------------

    /** Does the published edge exist? Vertices out of range read as empty. */
    method HasEdgeNow(src: nat, dst: nat) returns (r: bool)
      requires Valid()
      ensures r <==> HasEdge(trees, src, dst)
    {
      hide Arena.Valid, WalWriter.Valid, State, Meaning, Recorded, TableMatches, RetireLog.Contents;
      Lengths();
      if src >= numVertices {
        return false;
      }
      StateAt(arena.mem, arena.inUse, roots, trees, log.Contents(), leaked, src);
      r := Contains(arena.mem, roots[src], dst, trees[src]);
    }

    /** The neighbours of a vertex, ascending, or a panic of the traversal. */
    method NeighborsInto(src: nat) returns (ok: bool, buf: seq<nat>)
      requires Valid()
      ensures |trees| == numVertices && (ok <==> src < numVertices ==> RSteps(trees[src]) <= MAX_DEPTH)
      ensures ok ==> Ascending(buf) && forall x :: x in buf <==> HasEdge(trees, src, x)
      ensures ok && src < numVertices ==> buf == RElems(trees[src])
    {
      hide Valid, RSteps, RElems;
      Lengths();
      ok, buf := true, [];
      if src < numVertices {
        ok, buf := Existing(src);
      }
    }
  }

  lemma Folded(n: nat, trees: seq<Option<Tree>>, skewed: set<nat>, numEdges: nat, pendingEdges: nat, committed: nat, touched: seq<nat>)
    requires Meaning(n, trees, skewed, numEdges, pendingEdges, committed, touched)
    ensures Meaning(n, trees, skewed, numEdges + pendingEdges, 0, numEdges + pendingEdges, [])
    ensures numEdges + pendingEdges == EdgeTotal(trees) && committed == numEdges && (touched == [] ==> pendingEdges == 0)
  {
    hide InRange, Bounded;
  }

  lemma TableRefreshed(top: seq<TableUpper>, top': seq<TableUpper>, leaves: seq<nat>, touched: seq<nat>, roots: seq<Option<Slot>>)
    requires TableMatches(top, roots, touched) && Shape(top') && UppersCopied(top, top', leaves, roots)
    requires forall l :: l in leaves <==> l in touched
    ensures TableMatches(top', roots, [])
    ensures forall v: nat :: v < |roots| ==> Get(top', v) == roots[v]
  {
    CopiedLength(top, top', leaves, roots);
    hide Shape, UppersCopied, Get;
    forall v: nat | v < |roots| ensures Get(top', v) == roots[v] {
      ReadCopied(top, top', leaves, roots, v);
    }
  }

  lemma Reclaimed(m0: Mem, m: Mem, u: set<Slot>, roots: seq<Option<Slot>>, trees: seq<Option<Tree>>, logged: multiset<Slot>, leaked: set<Slot>)
    requires State(m0, u, roots, trees, logged, leaked)
    requires forall s :: s in m0 && s in u ==> s in m && m[s] == m0[s]
    ensures State(m, u, roots, trees, logged, leaked)
  {
    hide LiveBag, RootAt, RSlots, Owned;
    forall v | 0 <= v < |roots| ensures RootAt(m, roots[v], trees[v]) {
      OwnedOnce(u, trees, logged, leaked, v);
      RootKept(m0, m, roots[v], trees[v]);
    }
  }

  lemma ForgetLog(m: Mem, u: set<Slot>, roots: seq<Option<Slot>>, trees: seq<Option<Tree>>, logged: multiset<Slot>, leaked: set<Slot>)
    requires State(m, u, roots, trees, logged, leaked)
    ensures State(m, u, roots, trees, multiset{}, leaked + Members(logged, u))
  {
    hide LiveBag, Rooted;
    forall s
      ensures multiset(u)[s] == (LiveBag(trees) + multiset{} + multiset(leaked + Members(logged, u)))[s]
    {
      assert multiset(u)[s] == LiveBag(trees)[s] + logged[s] + multiset(leaked)[s];
    }
  }

  lemma RootSize(m: Mem, root: Option<Slot>, t: Option<Tree>)
    requires RootAt(m, root, t)
    ensures Ascending(RElems(t))
    ensures root.Some? ==> root.value in m && !m[root.value].FreeLink? && SubtreeSize(m, root.value) == |RElems(t)|
    ensures root.None? ==> RElems(t) == []
  {
    if t.Some? {
      OrderedElems(t.value);
    }
  }

  /** Position of the first destination at least `n`. */
  method FirstAtLeast(dsts: seq<U32>, n: nat) returns (p: nat)
    requires Ascending(dsts) && dsts != [] && dsts[|dsts| - 1] >= n
    ensures p < |dsts| && dsts[p] >= n && forall i :: 0 <= i < p ==> dsts[i] < n
  {
    p := 0;
    while dsts[p] < n
      invariant p < |dsts| && forall i :: 0 <= i < p ==> dsts[i] < n
      decreases |dsts| - p
    {
      p := p + 1;
    }
  }

  lemma AllInRange(dsts: seq<nat>, n: nat)
    requires Ascending(dsts) && dsts != [] && dsts[|dsts| - 1] < n
    ensures forall x :: x in dsts ==> x < n
  {
  }

  /** `k` new edges beside `degree` old ones: does chaining write fewer slots than rebuilding? */
  function PreferPathCopy(degree: nat, k: nat): bool {
    var depth := ILog2(Max(Leaves(degree), 1)) + 2;
    k * depth < 2 * Leaves(degree + k)
  }

  /** A batch inserted: the union, and how many were new. */
  ghost predicate BatchMeans(t: Option<Tree>, t': Option<Tree>, dsts: seq<nat>, n: nat) {
    && Ascending(RElems(t'))
    && (forall x :: x in RElems(t') <==> x in RElems(t) || x in dsts)
    && |RElems(t')| == |RElems(t)| + n
  }

  /** Both strategies mean the same. */
  lemma StrategiesAgree(t: Option<Tree>, t1: Option<Tree>, n1: nat, t2: Option<Tree>, n2: nat, dsts: seq<nat>)
    requires BatchMeans(t, t1, dsts, n1) && BatchMeans(t, t2, dsts, n2)
    ensures RElems(t1) == RElems(t2) && n1 == n2
  {
    hide RElems;
    AscendingUnique(RElems(t1), RElems(t2));
  }

  lemma GainsBatch(t: Option<Tree>, t': Option<Tree>, dsts: seq<nat>, news: seq<nat>)
    requires Gains(t, t', news) && NewOnes(t, dsts, news)
    ensures BatchMeans(t, t', dsts, |news|)
  {
    hide RElems;
  }

  lemma NoneNew(t: Option<Tree>, dsts: seq<nat>)
    requires Ascending(RElems(t)) && NewOnes(t, dsts, [])
    ensures BatchMeans(t, t, dsts, 0)
  {
    hide RElems;
  }

  lemma BuiltGains(m: Mem, t0: Option<Tree>, t: Tree, merged: seq<nat>, news: seq<nat>)
    requires Built(m, t, merged) && Ascending(merged) && |merged| == |RElems(t0)| + |news| && news != []
    requires forall x :: x in merged <==> x in RElems(t0) || x in news
    requires forall x :: x in news ==> x !in RElems(t0)
    ensures Gains(t0, Some(t), news) && VertexBounded(Some(t), false) && RElems(Some(t)) == merged
  {
    BuiltBounded(m, t, merged);
    hide VertexBounded, Ascending;
  }

  lemma PublishBuilt(m0: Mem, u0: set<Slot>, m: Mem, u: set<Slot>, added: set<Slot>, roots: seq<Option<Slot>>,
                     trees: seq<Option<Tree>>, logged: multiset<Slot>, leaked: set<Slot>, v: nat, t: Tree, vals: seq<nat>)
    requires State(m0, u0, roots, trees, logged, leaked) && v < |trees|
    requires Grown(m0, u0, m, u, added) && Built(m, t, vals) && Slots(t) == added
    ensures State(m, u, roots[v := Some(t.slot)], trees[v := Some(t)], logged + multiset(RSlots(trees[v])), leaked)
    ensures RootAt(m, roots[v], trees[v])
  {
    hide State, Owned, Rooted;
    StateAt(m0, u0, roots, trees, logged, leaked, v);
    GrownRoot(m0, u0, m, u, added, roots[v], trees[v]);
    Publish(m0, u0, m, u, added, roots, trees, logged, leaked, v, Some(t.slot), Some(t), RSlots(trees[v]), {});
    assert leaked + {} == leaked;
  }

  lemma BagEmpty(chunks: seq<nat>, interiors: seq<nat>)
    ensures Bag(chunks, interiors) == multiset{} <==> chunks == [] && interiors == []
  {
    if chunks != [] {
      assert ChunkSlot(chunks[|chunks| - 1]) in IdxBag(false, chunks);
    }
    if interiors != [] {
      assert InteriorSlot(interiors[|interiors| - 1]) in IdxBag(true, interiors);
    }
  }

  lemma {:induction false} IdxBagSize(interior: bool, idx: seq<nat>)
    ensures |IdxBag(interior, idx)| == |idx|
  {
    if idx != [] {
      IdxBagSize(interior, idx[..|idx| - 1]);
    }
  }

  lemma BagSize(chunks: seq<nat>, interiors: seq<nat>)
    ensures |Bag(chunks, interiors)| == |chunks| + |interiors|
  {
    IdxBagSize(false, chunks);
    IdxBagSize(true, interiors);
    hide IdxBag;
  }

  lemma MergedSize(e: seq<nat>, d: seq<nat>, merged: seq<nat>)
    requires Ascending(e) && Ascending(d) && Ascending(merged)
    requires forall x :: x in merged <==> x in e || x in d
    ensures (forall x :: x in d ==> x !in e) ==> |merged| == |e| + |d|
  {
    AscendingSize(e);
    AscendingSize(d);
    AscendingSize(merged);
    hide Ascending;
    if forall x :: x in d ==> x !in e {
      assert SetOf(merged) == SetOf(e) + SetOf(d) && SetOf(e) !! SetOf(d);
      hide SetOf;
    }
  }

  lemma SmallRoom(s: Stock, t: Option<Tree>, val: nat)
    requires RoomToInsert(s, t, val)
    ensures ChunkBytes(s) >= CHUNK_SLOT
  {
  }

  /** A vertex without edges never takes the path-copy branch. */
  /**
   * The batch goes down the chain exactly when its copied paths, each two slots more than the halvings of the old leaves,
   * take fewer slots than two for each leaf of the union.
   */
  lemma PathCopyIff(degree: nat, k: nat, old_: nat, halvings: nat, all: nat)
    requires degree <= 15 * old_ && (old_ > 0 ==> 15 * (old_ - 1) < degree)
    requires degree + k <= 15 * all && (all > 0 ==> 15 * (all - 1) < degree + k)
    requires Pow2(halvings) <= Max(old_, 1) < Pow2(halvings + 1)
    ensures PreferPathCopy(degree, k) <==> k * (halvings + 2) < 2 * all
  {
    assert Leaves(degree) == old_ && Leaves(degree + k) == all;
    Log2Unique(halvings, ILog2(Max(old_, 1)), Max(old_, 1));
    hide Leaves, ILog2;
  }

  lemma PathCopyNeedsTree(t: Option<Tree>, k: nat)
    ensures PreferPathCopy(|RElems(t)|, k) ==> t.Some?
  {
  }

  lemma BagHas(chunks: seq<nat>, interiors: seq<nat>, k: nat)
    requires k < |chunks|
    ensures ChunkSlot(chunks[k]) in Bag(chunks, interiors)
  {
    IdxBagMembers(false, chunks, ChunkSlot(chunks[k]));
  }

  lemma LiveHas(trees: seq<Option<Tree>>, v: nat, s: Slot)
    requires v < |trees| && s in RSlots(trees[v])
    ensures s in LiveBag(trees)
  {
    LiveBagHas(trees, v);
  }

  lemma {:induction false} PrefixBag(interior: bool, idx: seq<nat>, mark: nat)
    ensures IdxBag(interior, Cut(idx, mark)) <= IdxBag(interior, idx)
  {
    if mark < |idx| {
      IdxBagConcat(interior, idx[..mark], idx[mark..]);
      assert idx == idx[..mark] + idx[mark..];
    }
  }

  /** Cutting a log only drops entries. */
  lemma CutBag(e: Entries, chunksMark: nat, interiorsMark: nat)
    ensures Bag(Cut(e.chunks, chunksMark), Cut(e.interiors, interiorsMark)) <= Bag(e.chunks, e.interiors)
  {
    PrefixBag(false, e.chunks, chunksMark);
    PrefixBag(true, e.interiors, interiorsMark);
  }

  /** Logged slots are in use, and no published tree has them where nothing was published at `v`. */
  lemma LoggedApart(u: set<Slot>, trees: seq<Option<Tree>>, v: nat, t: Option<Tree>, logged: multiset<Slot>, leaked: set<Slot>)
    requires v < |trees| && Owned(u, trees[v := t], logged, leaked)
    ensures logged <= multiset(u)
    ensures trees[v].None? ==> forall s :: s in logged ==> s !in LiveBag(trees)
  {
    hide LiveBag;
    if trees[v].None? {
      LiveBagUpdate(trees, v, t);
      assert LiveBag(trees[v := t]) + multiset(RSlots(trees[v])) == LiveBag(trees[v := t]);
      forall s | s in logged ensures s !in LiveBag(trees) {
        NoTwice(u, LiveBag(trees[v := t]), logged + multiset(leaked), s);
        assert (LiveBag(trees) + multiset(RSlots(t)))[s] == LiveBag(trees)[s] + multiset(RSlots(t))[s];
      }
    }
  }

  /** Slots in use that no published tree has were leaked, if nothing was logged. */
  lemma Unleak(m: Mem, u: set<Slot>, roots: seq<Option<Slot>>, trees: seq<Option<Tree>>, logged: multiset<Slot>, leaked: set<Slot>)
    requires State(m, u, roots, trees, multiset{}, leaked) && logged <= multiset(u)
    requires forall s :: s in logged ==> s !in LiveBag(trees)
    ensures State(m, u, roots, trees, logged, leaked - Members(logged, leaked))
  {
    hide LiveBag, Rooted;
    forall s ensures multiset(u)[s] == (LiveBag(trees) + logged + multiset(leaked - Members(logged, leaked)))[s] {
      assert multiset(u)[s] == LiveBag(trees)[s] + multiset{}[s] + multiset(leaked)[s];
      assert logged[s] <= multiset(u)[s] <= 1;
    }
  }

  /** More destinations than the stock has chunks for, all of them new. */
  ghost predicate Outnumbered(s: Stock, t: Option<Tree>, dsts: seq<nat>) {
    && s.idle && ChunkBytes(s) < CHUNK_SLOT * |dsts|
    && Ascending(dsts) && forall x :: x in dsts ==> x !in RElems(t)
  }

  ghost function SetOf(s: seq<nat>): set<nat> {
    set x | x in s
  }

  lemma SetOfSnoc(s: seq<nat>)
    requires s != []
    ensures SetOf(s) == SetOf(s[..|s| - 1]) + {s[|s| - 1]}
  {
    assert s == s[..|s| - 1] + [s[|s| - 1]];
  }

  lemma MoreLeaves(s: seq<nat>, x: nat)
    ensures |SetOf(s)| <= |SetOf(s + [x])|
  {
    var before, after := SetOf(s), SetOf(s + [x]);
    assert after == before + {x};
    if x in before {
      assert after == before;
    }
  }

  lemma AscendingLast(s: seq<nat>)
    requires Ascending(s) && s != []
    ensures Ascending(s[..|s| - 1]) && s[|s| - 1] !in SetOf(s[..|s| - 1])
  {
  }

  lemma {:induction false} AscendingSize(s: seq<nat>)
    requires Ascending(s)
    ensures |SetOf(s)| == |s|
  {
    if s != [] {
      AscendingLast(s);
      SetOfSnoc(s);
      AscendingSize(s[..|s| - 1]);
      hide SetOf, Ascending;
    }
  }

  lemma {:induction false} MembersSize(s: seq<nat>)
    ensures |SetOf(s)| <= |s|
  {
    if s != [] {
      SetOfSnoc(s);
      MembersSize(s[..|s| - 1]);
      hide SetOf;
    }
  }

  lemma SetWithin(a: set<nat>, b: set<nat>)
    requires a <= b
    ensures |a| <= |b|
  {
    assert b == a + (b - a);
  }

  /** A chain cannot take more destinations than there are chunks. */
  lemma NotAll(s: Stock, s': Stock, t: Option<Tree>, dsts: seq<nat>, news: seq<nat>, full: bool)
    requires Leaner(s, s', CHUNK_SLOT * |news|) && (!full ==> NewOnes(t, dsts, news))
    ensures Outnumbered(s, t, dsts) ==> full
  {
    hide RElems, Ascending;
    if Outnumbered(s, t, dsts) && !full {
      AscendingSize(dsts);
      MembersSize(news);
      SetWithin(SetOf(dsts), SetOf(news));
    }
  }

  lemma BoundedAt(trees: seq<Option<Tree>>, skewed: set<nat>, v: nat)
    requires Bounded(trees, skewed) && v < |trees|
    ensures VertexBounded(trees[v], v in skewed)
  {
    hide VertexBounded;
  }

  /** What a retire log holds. */
  datatype Entries = Entries(chunks: seq<nat>, interiors: seq<nat>)

  /** `news` are the elements of `dsts` that `t` lacks. */
  ghost predicate NewOnes(t: Option<Tree>, dsts: seq<nat>, news: seq<nat>) {
    && (forall x :: x in news ==> x in dsts && x !in RElems(t))
    && (forall x :: x in dsts ==> x in news || x in RElems(t))
  }

  /** The first `k` destinations have been dealt with. */
  ghost predicate Seen(t: Option<Tree>, dsts: seq<nat>, k: nat, news: seq<nat>) {
    && k <= |dsts|
    && (forall x :: x in news ==> x in dsts)
    && (forall i :: 0 <= i < k ==> dsts[i] in news || dsts[i] in RElems(t))
  }

  lemma SeenNone(t: Option<Tree>, dsts: seq<nat>)
    ensures Seen(t, dsts, 0, [])
  {
  }

  lemma SeenNext(t: Option<Tree>, dsts: seq<nat>, k: nat, news: seq<nat>, isNew: bool)
    requires Seen(t, dsts, k, news) && k < |dsts|
    requires !isNew ==> dsts[k] in news || dsts[k] in RElems(t)
    ensures Seen(t, dsts, k + 1, if isNew then news + [dsts[k]] else news)
  {
    hide RElems;
  }

  lemma SeenIn(t: Option<Tree>, dsts: seq<nat>, k: nat, news: seq<nat>)
    requires Seen(t, dsts, k, news)
    ensures forall x :: x in news ==> x in dsts
  {
  }

  lemma SeenAll(t: Option<Tree>, dsts: seq<nat>, k: nat, news: seq<nat>)
    requires Seen(t, dsts, k, news) && forall x :: x in news ==> x !in RElems(t)
    ensures k == |dsts| ==> NewOnes(t, dsts, news)
  {
    hide RElems;
  }

  lemma ChainRoot(m0: Mem, u0: set<Slot>, m: Mem, u: set<Slot>, t0: Option<Tree>, root: Option<Slot>, cur: Option<Tree>,
                  news: seq<nat>, gone: set<Slot>, added: set<Slot>, lost: set<Slot>, skewed: bool)
    requires Chain(m0, u0, m, u, t0, root, cur, news, gone, added, lost, skewed)
    ensures RootAt(m, root, cur) && RSlots(cur) <= u
  {
    hide Gains, VertexBounded, RootAt, RSlots, Accounted, Grown;
  }

  lemma ChainHas(m0: Mem, u0: set<Slot>, m: Mem, u: set<Slot>, t0: Option<Tree>, root: Option<Slot>, cur: Option<Tree>,
                 news: seq<nat>, gone: set<Slot>, added: set<Slot>, lost: set<Slot>, skewed: bool, x: nat)
    requires Chain(m0, u0, m, u, t0, root, cur, news, gone, added, lost, skewed) && x in RElems(cur)
    ensures x in RElems(t0) || x in news
  {
    hide VertexBounded, RootAt, RSlots, Accounted, Grown, RElems;
  }

  lemma ChainEnd(m0: Mem, u0: set<Slot>, m: Mem, u: set<Slot>, root: Option<Slot>, cur: Option<Tree>, news: seq<nat>,
                 gone: set<Slot>, added: set<Slot>, lost: set<Slot>, skewed: bool, roots: seq<Option<Slot>>,
                 trees: seq<Option<Tree>>, logged: multiset<Slot>, leaked: set<Slot>, v: nat)
    requires v < |trees| && State(m0, u0, roots, trees, logged, leaked)
    requires Chain(m0, u0, m, u, trees[v], root, cur, news, gone, added, lost, skewed)
    ensures |roots| == |trees|
    ensures State(m, u, roots[v := root], trees[v := cur], logged + multiset(gone), leaked + lost)
    ensures State(m, u, roots, trees, logged, leaked + added)
    ensures Gains(trees[v], cur, news) && VertexBounded(cur, skewed)
    ensures forall x :: x in news ==> x !in RElems(trees[v])
  {
    hide State, RElems, VertexBounded, RootAt, RSlots, Accounted, Grown;
    StateLength(m0, u0, roots, trees, logged, leaked);
    ChainPublish(m0, u0, m, u, root, cur, news, gone, added, lost, skewed, roots, trees, logged, leaked, v);
    Leak(m0, u0, m, u, added, roots, trees, logged, leaked);
  }

  lemma MeaningLength(n: nat, trees: seq<Option<Tree>>, skewed: set<nat>, numEdges: nat, pendingEdges: nat, committed: nat,
                      touched: seq<nat>)
    requires Meaning(n, trees, skewed, numEdges, pendingEdges, committed, touched)
    ensures |trees| == n <= MAX_VERTICES && Bounded(trees, skewed) && InRange(trees)
  {
  }

  /** Everything but the slots, after a root store. */
  lemma Republished(n: nat, trees: seq<Option<Tree>>, skewed: set<nat>, numEdges: nat, pendingEdges: nat, latest: Snapshot,
                    touched: seq<nat>, roots: seq<Option<Slot>>, records: seq<EdgeRecord>, recorded: bool,
                    v: U32, root: Option<Slot>, t: Option<Tree>, news: seq<U32>, skewed': set<nat>, touched': seq<nat>)
    requires Meaning(n, trees, skewed, numEdges, pendingEdges, latest.numEdges, touched) && v < n == |roots|
    requires recorded ==> Recorded(records, trees)
    requires TableMatches(latest.top, roots, touched)
    requires Gains(trees[v], t, news) && VertexBounded(t, v in skewed') && forall x :: x in news ==> x < n
    requires forall w :: w != v ==> (w in skewed' <==> w in skewed)
    requires touched' != [] && forall l :: l in touched' <==> l in touched || l == v / LEAF
    ensures Meaning(n, trees[v := t], skewed', numEdges, pendingEdges + |news|, latest.numEdges, touched')
    ensures recorded ==> Recorded(records + EdgesOf(v, news), trees[v := t])
    ensures TableMatches(latest.top, roots[v := root], touched')
  {
    hide Recorded, TableMatches, Gains, VertexBounded, InRange, Bounded, RElems;
    MeaningUpdate(n, trees, skewed, numEdges, pendingEdges, latest.numEdges, touched, v, t, news, skewed', touched');
    if recorded {
      RecordedUpdate(records, trees, v, t, news);
    }
    TouchedStore(latest.top, roots, touched, touched', v, root);
  }

  /** A single insertion, ready to be published. */
  lemma PublishOne(m0: Mem, u0: set<Slot>, m: Mem, u: set<Slot>, roots: seq<Option<Slot>>, trees: seq<Option<Tree>>,
                   logged: multiset<Slot>, leaked: set<Slot>, v: nat, t': Tree, val: nat, gone: set<Slot>, added: set<Slot>,
                   lost: set<Slot>, failed: bool, skewed: set<nat>)
    requires State(m0, u0, roots, trees, logged, leaked) && v < |trees| && Bounded(trees, skewed)
    requires Grown(m0, u0, m, u, added) && InsertDone(m, trees[v], t', val, gone, added, lost) && HeightKept(trees[v], t', failed)
    ensures State(m, u, roots[v := Some(t'.slot)], trees[v := Some(t')], logged + multiset(gone), leaked + lost)
    ensures Gains(trees[v], Some(t'), [val]) && VertexBounded(Some(t'), v in skewed || failed)
  {
    hide InsertDone, HeightKept, VertexBounded, Gains, Grown, RSlots, RootAt, Accounted, RElems;
    StateAt(m0, u0, roots, trees, logged, leaked, v);
    ChainStart(m0, u0, roots[v], trees[v], v in skewed);
    ChainStep(m0, u0, m0, u0, trees[v], roots[v], trees[v], [], {}, {}, {}, v in skewed, m, u, t', val, gone, added, lost, failed);
    assert {} + gone == gone && {} + added == added && {} + lost == lost && [] + [val] == [val];
    ChainPublish(m0, u0, m, u, Some(t'.slot), Some(t'), [val], gone, added, lost, v in skewed || failed, roots, trees,
                 logged, leaked, v);
  }

  lemma StateLength(m: Mem, u: set<Slot>, roots: seq<Option<Slot>>, trees: seq<Option<Tree>>, logged: multiset<Slot>,
                    leaked: set<Slot>)
    requires State(m, u, roots, trees, logged, leaked)
    ensures |roots| == |trees|
  {
  }

  lemma StateAt(m: Mem, u: set<Slot>, roots: seq<Option<Slot>>, trees: seq<Option<Tree>>, logged: multiset<Slot>,
                leaked: set<Slot>, v: nat)
    requires State(m, u, roots, trees, logged, leaked) && v < |trees|
    ensures |roots| == |trees| && RootAt(m, roots[v], trees[v]) && RSlots(trees[v]) <= u
  {
    hide LiveBag, RootAt, RSlots;
    OwnedOnce(u, trees, logged, leaked, v);
  }

  lemma LoggedUsed(u: set<Slot>, trees: seq<Option<Tree>>, logged: multiset<Slot>, leaked: set<Slot>)
    requires Owned(u, trees, logged, leaked)
    ensures logged <= multiset(u)
  {
  }

  lemma {:induction false} EmptyTrees(trees: seq<Option<Tree>>)
    requires forall v :: 0 <= v < |trees| ==> trees[v] == None
    ensures LiveBag(trees) == multiset{} && EdgeTotal(trees) == 0
  {
    if trees != [] {
      EmptyTrees(trees[..|trees| - 1]);
    }
  }

  lemma EmptyGraph(m: Mem, roots: seq<Option<Slot>>, trees: seq<Option<Tree>>, log: multiset<Slot>, top: seq<TableUpper>)
    requires |roots| == |trees| <= MAX_VERTICES && log == multiset{}
    requires forall v :: 0 <= v < |trees| ==> trees[v] == None && roots[v] == None
    requires Shape(top) && |roots| <= SPAN * |top| && forall v: nat :: v / SPAN < |top| ==> Get(top, v) == None
    ensures State(m, {}, roots, trees, log, {})
    ensures Meaning(|trees|, trees, {}, 0, 0, 0, []) && TableMatches(top, roots, []) && EdgeTotal(trees) == 0
    ensures forall v: nat :: v < |roots| ==> Get(top, v) == roots[v]
  {
    hide Shape, Get, DepthLimit, LiveBag, Bounded, InRange, EdgeTotal, RootAt;
    EmptyTrees(trees);
    EmptyMeans(m, roots, trees);
    forall v: nat | v < |roots| ensures v / SPAN < |top| && Get(top, v) == roots[v] { }
  }

  lemma EmptyMeans(m: Mem, roots: seq<Option<Slot>>, trees: seq<Option<Tree>>)
    requires |roots| == |trees|
    requires forall v :: 0 <= v < |trees| ==> trees[v] == None && roots[v] == None
    ensures InRange(trees) && Bounded(trees, {})
    ensures forall v :: 0 <= v < |trees| ==> RootAt(m, roots[v], trees[v])
  {
    hide DepthLimit;
  }

  lemma {:induction false} AscendingCount(s: seq<nat>, n: nat)
    requires Ascending(s) && forall x :: x in s ==> x < n
    ensures |s| <= n
  {
    if s != [] {
      var last := s[|s| - 1];
      var front := s[..|s| - 1];
      assert last in s;
      forall x | x in front ensures x < last {
        assert s == front + [last];
        var i :| 0 <= i < |front| && front[i] == x;
        assert s[i] < s[|s| - 1];
      }
      AscendingCount(front, last);
    }
  }

  /**
   * A vertex whose rebuilds have found room is never deeper than 57 interiors, well within what a
   * descent records and a traversal stacks, however many edges a graph of 32-bit ids can hold.
   */
  lemma PathFits(g: Graph, v: nat)
    requires g.Valid() && v < g.numVertices && v !in g.skewed
    ensures v < |g.trees| && RHeight(g.trees[v]) < 58 <= MAX_DEPTH
  {
    hide Arena.Valid, WalWriter.Valid, State, Recorded, TableMatches, RElems, RHeight, DepthLimit, EdgeTotal, Bag;
    MeaningLength(g.numVertices, g.trees, g.skewed, g.numEdges, g.pendingEdges, g.latest.numEdges, g.touched);
    StateLength(g.arena.mem, g.arena.inUse, g.roots, g.trees, g.log.Contents(), g.leaked);
    StateAt(g.arena.mem, g.arena.inUse, g.roots, g.trees, g.log.Contents(), g.leaked, v);
    RootAscending(g.arena.mem, g.roots[v], g.trees[v]);
    AscendingCount(RElems(g.trees[v]), g.numVertices);
    BoundedAt(g.trees, g.skewed, v);
    StackHeadroom(|RElems(g.trees[v])|);
  }
}
