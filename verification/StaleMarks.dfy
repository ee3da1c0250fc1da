/** A run of batches, from an empty graph, after which the retire log holds a slot of a published tree. */
module StaleMarks {
  import opened Options
  import opened Chunks
  import opened Trees
  import opened Balance
  import opened Pending
  import opened Arenas
  import opened Builds
  import opened Paths
  import opened CTrees
  import opened Ownership
  import opened Wals
  import opened Graphs
  import opened Batches

  // -- The numbers ------------------------------------------------------------------

  lemma Strategies()
    ensures !PreferPathCopy(0, 44) && !PreferPathCopy(0, 1) && !PreferPathCopy(1, 1) && PreferPathCopy(44, 2)
  {
    assert ILog2(1) == 0 && ILog2(3) == 1;
  }

  lemma Costs()
    ensures BuildBytes(44) == 224 && BuildBytes(1) == BuildBytes(2) == 64
  {
  }

  lemma UpperHalf(t: Tree, vals: seq<nat>)
    requires Shaped(t, vals) && |vals| > CHUNK_CAP
    ensures BuildSplit(|vals|) < |vals|
    ensures t.Branch? && t.key == vals[BuildSplit(|vals|)] && Shaped(t.right, vals[BuildSplit(|vals|)..])
  {
  }

  /** Of 44 ids in three leaves, the last leaf has 14, two interiors down to the right. */
  lemma LastLeaf(t: Tree, vals: seq<nat>)
    requires Shaped(t, vals) && |vals| == 44 && forall x :: x in vals ==> x < 44
    ensures PathLen(t, 44) == 2 && EndCount(t, 44) == 14
  {
    assert BuildSplit(44) == 15 && BuildSplit(29) == 15;
    UpperHalf(t, vals);
    var upper := vals[15..];
    UpperHalf(t.right, upper);
    assert upper[15] == vals[30] && vals[15] in vals && vals[30] in vals;
    hide Shaped;
    RightEnd(t, 44);
    RightEnd(t.right, 44);
    FewShaped(t.right.right, upper[15..]);
  }

  lemma RightEnd(t: Tree, val: nat)
    requires t.Branch? && t.key <= val
    ensures PathLen(t, val) == 1 + PathLen(t.right, val) && EndCount(t, val) == EndCount(t.right, val)
  {
  }

  // -- The run ----------------------------------------------------------------------

  const VERTICES: nat := 46
  const BYTES: nat := 384

  lemma OneSlot(t: Option<Tree>)
    requires Holds(t, 0, 1)
    ensures |RSlots(t)| == 1
  {
    FewShaped(t.value, RElems(t));
    assert RSlots(t) == {t.value.slot};
  }

  /**
   * Vertex 0 gets 44 neighbours and vertex 1 gets one and then another. The second batch of vertex 1
   * logs its one leaf; no chunk fits any more.
   */
  method FillUp(readers: nat -> Answer) returns (g: Graph)
    ensures fresh(g) && fresh(g.arena) && fresh(g.log)
    ensures Filling(g, readers, 32) && g.numVertices == VERTICES && Holds(g.trees[0], 0, 44) && |g.log.chunks| == 1 && g.log.interiors == []
  {
    hide Graph.Valid, Holds, PreferPathCopy, RSlots, BuildBytes, Bag, Arena.Supply, Bare;
    g := Start(VERTICES, BYTES, readers);
    Strategies();
    Costs();
    RangeMembers(0, 44);
    NoSlots(None, 0);
    BagSize(g.log.chunks, g.log.interiors);
    var _ := Fill(g, 0, 0, 0, Range(0, 44), readers, 384);
    BagSize(g.log.chunks, g.log.interiors);
    var _ := Fill(g, 1, 0, 0, [0], readers, 160);
    OneSlot(g.trees[1]);
    var _ := Fill(g, 1, 0, 1, [1], readers, 96);
    BagSize(g.log.chunks, g.log.interiors);
    Leafed(g);
  }

  lemma IsStarved(g: Graph, readers: nat -> Answer, dsts: seq<U32>)
    requires Filling(g, readers, 32) && g.numVertices == VERTICES && Holds(g.trees[0], 0, 44) && |g.log.chunks| == 1 && g.log.interiors == []
    requires Silent(readers)
    requires dsts == [44, 45]
    ensures g.Starved(0, dsts)
  {
    hide Graph.Valid, RElems, Shaped, Arena.Supply;
    var t := g.trees[0].value;
    LastLeaf(t, RElems(g.trees[0]));
    assert g.arena.Quiet() && g.arena.Young(g.log);
    assert FirstFits(g.Stamped(), g.trees[0], 44) by { Fitting(g.Stamped(), g.trees[0], 44); }
  }

  lemma IsCalm(t: Option<Tree>)
    requires Holds(t, 0, 44)
    ensures Calm(t, 2)
  {
    HoldsSteps(t, 0, 44);
    StackHeadroom(46);
    hide RSteps, DepthLimit, RElems, Shaped;
  }

  lemma Fitting(s: Stock, t: Option<Tree>, val: nat)
    requires t.Some? && PathLen(t.value, val) == 2 && EndCount(t.value, val) == 14 && val !in RElems(t)
    requires s.idle && s.ample && s.gap == 32 && s.freeChunks == 1 && s.freeInteriors == 0
    ensures FirstFits(s, t, val)
  {
    hide RElems, PathLen, EndCount;
  }

  /**
   * Insert two neighbours past the last of vertex 0, with no reader in the gate. The first chain finds no
   * chunk; stamping the log frees one; the second chain inserts the first neighbour with it and finds no
   * room for the second. The leaf that it replaced, and that vertex 0 still reaches, stays logged. The
   * next stamp queues that slot for reuse.
   */
  method StaleMarksRun(readers: nat -> Answer) returns (g: Graph, r: BatchResult, ghost harmed: bool, ghost s: Slot)
    requires Silent(readers)
    ensures fresh(g) && r == BatchFull && harmed
    ensures g.arena.Valid() && s in g.arena.PendingBag() && s !in g.arena.inUse
    ensures s in LiveBag(g.trees) && Rooted(g.arena.mem, g.roots, g.trees)
  {
    hide Graph.Valid, Graph.Held, Graph.Starved, Graph.Harmed, Graph.Recoverable, Holds, PreferPathCopy, LiveBag, Rooted, Bag;
    hide Arena.Supply, Bare, RElems, Arena.Valid, Arena.PendingBag, Calm, Graph.Fallen, Graph.Whole, Graph.Spacious, Graph.RebuiltIn;
    g := FillUp(readers);
    var dsts: seq<U32> := [44, 45];
    IsStarved(g, readers, dsts);
    Strategies();
    HoldsSize(g.trees[0], 0, 44);
    IsCalm(g.trees[0]);
    var res, _, _, _ := g.InsertEdgesSorted(0, dsts);
    r, harmed := res, g.Harmed();
    s := g.StampHarmed();
  }
}
