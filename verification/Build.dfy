/**
 * Balanced builds, in-order traversal and whole-tree retirement over arena memory.
 */
module Builds {
  import opened Options
  import opened Sorted
  import opened Chunks
  import opened Trees
  import opened Balance
  import opened Pending
  import opened Arenas

  /** The arena handed out exactly `added`, and everything in use before reads as before. */
  ghost predicate Grown(m0: Mem, u0: set<Slot>, m: Mem, u: set<Slot>, added: set<Slot>) {
    && added !! u0 && u == u0 + added
    && forall s :: s in u0 && s in m0 ==> s in m && m[s] == m0[s]
  }

  lemma GrownTrans(m0: Mem, u0: set<Slot>, m1: Mem, u1: set<Slot>, f1: set<Slot>, m2: Mem, u2: set<Slot>, f2: set<Slot>)
    requires Grown(m0, u0, m1, u1, f1) && Grown(m1, u1, m2, u2, f2)
    ensures Grown(m0, u0, m2, u2, f1 + f2)
  {
  }

  lemma GrownStored(m0: Mem, u0: set<Slot>, m: Mem, u: set<Slot>, added: set<Slot>, t: Tree)
    requires Grown(m0, u0, m, u, added) && Stored(m0, t) && Slots(t) <= u0
    ensures Stored(m, t)
  {
    StoredSlots(m0, t);
    StoredFrame(m0, m, t);
  }

  // -- What a tree costs --------------------------------------------------------

  ghost function LeafCount(t: Tree): nat {
    match t
    case Leaf(_, _) => 1
    case Branch(_, l, r, _, _) => LeafCount(l) + LeafCount(r)
  }

  /** Chunk slots and interior slots of a compact tree over `n` ids. */
  function CompactSlotCost(n: nat): (nat, nat) {
    if n == 0 then (0, 0) else (Leaves(n), Leaves(n) - 1)
  }

  ghost function ChunksOf(t: Tree): set<Slot> {
    set s | s in Slots(t) && s.ChunkSlot?
  }

  ghost function InteriorsOf(t: Tree): set<Slot> {
    set s | s in Slots(t) && s.InteriorSlot?
  }

  lemma UnionSize(a: set<Slot>, b: set<Slot>)
    requires a !! b
    ensures |a + b| == |a| + |b|
  {
  }

  lemma KindsOfBranch(s: Slot, l: Tree, r: Tree, count: nat, key: nat)
    requires s.InteriorSlot?
    ensures ChunksOf(Branch(s, l, r, count, key)) == ChunksOf(l) + ChunksOf(r)
    ensures InteriorsOf(Branch(s, l, r, count, key)) == {s} + (InteriorsOf(l) + InteriorsOf(r))
  {
  }

  /** A stored tree occupies one chunk slot per leaf and one interior slot fewer. */
  lemma {:induction false} SlotCount(m: Mem, t: Tree)
    requires Stored(m, t) && Apart(t)
    ensures |ChunksOf(t)| == LeafCount(t) && |InteriorsOf(t)| + 1 == LeafCount(t)
  {
    match t
    case Leaf(s, _) =>
      assert ChunksOf(t) == {s} && InteriorsOf(t) == {};
    case Branch(s, l, r, count, key) =>
      SlotCount(m, l);
      SlotCount(m, r);
      KindsOfBranch(s, l, r, count, key);
      hide Stored;
      UnionSize(ChunksOf(l), ChunksOf(r));
      UnionSize(InteriorsOf(l), InteriorsOf(r));
      UnionSize({s}, InteriorsOf(l) + InteriorsOf(r));
  }

  // -- Balanced builds ----------------------------------------------------------

  /** Bytes of a compact tree over `n` ids. */
  function BuildBytes(n: nat): nat {
    CHUNK_SLOT * CompactSlotCost(n).0 + INTERIOR_SLOT * CompactSlotCost(n).1
  }

  /** The one arrangement a balanced build gives `vals`. */
  ghost predicate Shaped(t: Tree, vals: seq<nat>)
    decreases t
  {
    match t
    case Leaf(_, chunk) => |vals| <= CHUNK_CAP && chunk.Vals() == vals
    case Branch(_, l, r, _, key) =>
      var mid := BuildSplit(|vals|);
      && |vals| > CHUNK_CAP && mid < |vals| && key == vals[mid]
      && Shaped(l, vals[..mid]) && Shaped(r, vals[mid..])
  }

  /** What a balanced build over `vals` leaves in memory. */
  ghost predicate Built(m: Mem, t: Tree, vals: seq<nat>) {
    && Stored(m, t) && Sound(t)
    && Elems(t) == vals
    && LeafCount(t) == Leaves(|vals|)
    && BuiltHeight(Height(t), |vals|)
  }

  lemma SplitLeaves(n: nat)
    requires n > CHUNK_CAP
    ensures var mid := BuildSplit(n);
      && 0 < mid < n && Leaves(n) >= 2
      && Leaves(mid) == Leaves(n) / 2 && Leaves(n - mid) == Leaves(n) - Leaves(n) / 2
  {
  }

  lemma JoinHeight(n: nat, hl: nat, hr: nat)
    requires n > CHUNK_CAP
    requires BuiltHeight(hl, BuildSplit(n)) && BuiltHeight(hr, n - BuildSplit(n))
    ensures BuiltHeight(1 + Max(hl, hr), n)
  {
    SplitLeaves(n);
    var mid := BuildSplit(n);
    assert Pow2(hl) == (if mid <= CHUNK_CAP then 1 else Pow2(hl));
    assert Pow2(hr) == (if n - mid <= CHUNK_CAP then 1 else Pow2(hr));
  }

  /** The recursion of a balanced build keeps everything a build promises. */
  lemma JoinOrdered(vals: seq<nat>, mid: nat, l: Tree, r: Tree, s: Slot)
    requires Ascending(vals) && 0 < mid < |vals|
    requires Ordered(l) && Ordered(r) && Elems(l) == vals[..mid] && Elems(r) == vals[mid..]
    ensures Ordered(Branch(s, l, r, |vals|, vals[mid])) && Elems(Branch(s, l, r, |vals|, vals[mid])) == vals
  {
    OrderedElems(l);
    OrderedElems(r);
    assert vals[..mid] + vals[mid..] == vals;
    assert forall i :: 0 <= i < mid ==> vals[..mid][i] == vals[i];
    assert forall i :: 0 <= i < |vals| - mid ==> vals[mid..][i] == vals[mid + i];
  }

  lemma JoinBuilt(m: Mem, vals: seq<nat>, mid: nat, l: Tree, r: Tree, s: Slot)
    requires |vals| > CHUNK_CAP && Ascending(vals)
    requires mid == BuildSplit(|vals|) && mid < |vals|
    requires Built(m, l, vals[..mid]) && Built(m, r, vals[mid..])
    requires Slots(l) !! Slots(r) && s !in Slots(l) && s !in Slots(r) && s.InteriorSlot?
    requires s in m && m[s] == InteriorNode(l.slot, r.slot, |vals|, vals[mid])
    ensures Built(m, Branch(s, l, r, |vals|, vals[mid]), vals)
    ensures Slots(Branch(s, l, r, |vals|, vals[mid])) == Slots(l) + Slots(r) + {s}
  {
    hide Stored, Slots, Ordered, Apart, Elems, Height, LeafCount, Leaves, BuildSplit, BuiltHeight, Ascending;
    SplitLeaves(|vals|);
    JoinStored(m, l, r, s, |vals|, vals[mid]);
    JoinOrdered(vals, mid, l, r, s);
    JoinCounts(|vals|, mid, l, r, s, vals[mid]);
  }

  lemma JoinStored(m: Mem, l: Tree, r: Tree, s: Slot, n: nat, key: nat)
    requires Stored(m, l) && Stored(m, r) && Apart(l) && Apart(r)
    requires Slots(l) !! Slots(r) && s !in Slots(l) && s !in Slots(r) && s.InteriorSlot?
    requires s in m && m[s] == InteriorNode(l.slot, r.slot, n, key)
    ensures Stored(m, Branch(s, l, r, n, key)) && Apart(Branch(s, l, r, n, key))
    ensures Slots(Branch(s, l, r, n, key)) == Slots(l) + Slots(r) + {s}
  {
  }

  lemma JoinCounts(n: nat, mid: nat, l: Tree, r: Tree, s: Slot, key: nat)
    requires n > CHUNK_CAP && mid == BuildSplit(n) && mid < n
    requires LeafCount(l) == Leaves(mid) && BuiltHeight(Height(l), mid)
    requires LeafCount(r) == Leaves(n - mid) && BuiltHeight(Height(r), n - mid)
    ensures LeafCount(Branch(s, l, r, n, key)) == Leaves(n) && BuiltHeight(Height(Branch(s, l, r, n, key)), n)
  {
    hide BuiltHeight, Leaves, BuildSplit;
    SplitLeaves(n);
    JoinHeight(n, Height(l), Height(r));
  }

  lemma SliceAscending(s: seq<nat>, i: nat, j: nat)
    requires Ascending(s) && i <= j <= |s|
    ensures Ascending(s[i..j])
  {
  }

  /** One allocation, seen as growth of the arena. */
  method PutChunk(a: Arena, c: Chunk) returns (r: Option<Slot>, ghost added: set<Slot>)
    requires a.Valid()
    modifies a
    ensures a.Valid() && a.SameGuard() && Grown(old(a.mem), old(a.inUse), a.mem, a.inUse, added)
    ensures r.None? ==> added == {} && a.Exhausted()
    ensures ChunkTaken(old(a.Supply()), a.Supply(), r.Some?)
    ensures r.Some? ==> r.value.ChunkSlot? && added == {r.value} && r.value in a.mem && a.mem[r.value] == ChunkNode(c)
  {
    hide ValidSlots, ValidQueues, ValidCursors, QueueBag, ChunkTaken, Leaner, Arena.Supply, Arena.Waiting;
    var idx := a.AllocWriteChunk(c);
    if idx.None? {
      return None, {};
    }
    return Some(ChunkSlot(idx.value)), {ChunkSlot(idx.value)};
  }

  method PutInterior(a: Arena, left: Slot, right: Slot, count: nat, key: nat)
    returns (r: Option<Slot>, ghost added: set<Slot>)
    requires a.Valid()
    modifies a
    ensures a.Valid() && a.SameGuard() && Grown(old(a.mem), old(a.inUse), a.mem, a.inUse, added)
    ensures r.None? ==> added == {} && a.Exhausted()
    ensures InteriorTaken(old(a.Supply()), a.Supply(), r.Some?)
    ensures r.Some? ==> r.value.InteriorSlot? && added == {r.value} && r.value in a.mem
                        && a.mem[r.value] == InteriorNode(left, right, count, key)
  {
    hide ValidSlots, ValidQueues, ValidCursors, QueueBag, InteriorTaken, Leaner, Arena.Supply, Arena.Waiting;
    var idx := a.AllocWriteInterior(left, right, count, key);
    if idx.None? {
      return None, {};
    }
    return Some(InteriorSlot(idx.value)), {InteriorSlot(idx.value)};
  }

  /**
   * What a build over `n` ids takes of the stock: exactly its slots, and room for them is what it needs. With no
   * chunk to be had it takes nothing.
   */
  ghost predicate BuildTook(s: Stock, s': Stock, n: nat, built: bool) {
    n > 0 && TreeTook(s, s', Leaves(n), built) && NoChunkTook(s, s', built)
  }

  /** A tree of `c` leaves was paid for, or could not be. */
  ghost predicate TreeTook(s: Stock, s': Stock, c: nat, built: bool) {
    c > 0 && if built then Paid(s, s', c, c - 1) else !Room(s, c, c - 1)
  }

  ghost predicate NoChunkTook(s: Stock, s': Stock, built: bool) {
    && (built ==> Leaner(s, s', CHUNK_SLOT))
    && (s.idle && ChunkBytes(s) < CHUNK_SLOT ==> !built && s' == s)
  }

  lemma LeafTook(s: Stock, s': Stock, taken: bool, n: nat)
    requires ChunkTaken(s, s', taken) && 0 < n <= CHUNK_CAP
    ensures BuildTook(s, s', n, taken)
  {
    PaidChunk(s, s', taken);
    assert Leaves(n) == 1;
  }

  lemma HalvesTook(s0: Stock, s1: Stock, s2: Stock, s3: Stock, n: nat, l: bool, r: bool, top: bool)
    requires n > CHUNK_CAP && BuildTook(s0, s1, BuildSplit(n), l)
    requires if l then BuildTook(s1, s2, n - BuildSplit(n), r) else !r && s2 == s1
    requires if r then InteriorTaken(s2, s3, top) else !top && s3 == s2
    ensures BuildTook(s0, s3, n, top)
  {
    SplitLeaves(n);
    JoinTook(s0, s1, s2, s3, Leaves(BuildSplit(n)), Leaves(n - BuildSplit(n)), l, r, top);
    hide Leaves, BuildSplit, TreeTook;
    if r {
      PaidInterior(s2, s3, top);
    }
  }

  lemma JoinTook(s0: Stock, s1: Stock, s2: Stock, s3: Stock, c1: nat, c2: nat, l: bool, r: bool, top: bool)
    requires TreeTook(s0, s1, c1, l) && c2 > 0
    requires if l then TreeTook(s1, s2, c2, r) else !r
    requires if r then InteriorTaken(s2, s3, top) else !top
    ensures TreeTook(s0, s3, c1 + c2, top)
  {
    hide Room, Paid;
    if !l {
      NoRoomFor(s0, c1, c1 - 1, c1 + c2, c1 + c2 - 1);
    } else if !r {
      NoRoomAfter(s0, s1, c1, c1 - 1, c2, c2 - 1);
      NoRoomFor(s0, c1 + c2, c1 + c2 - 2, c1 + c2, c1 + c2 - 1);
    } else {
      PaidThen(s0, s1, s2, c1, c1 - 1, c2, c2 - 1);
      PaidInterior(s2, s3, top);
      PaidThen(s0, s2, s3, c1 + c2, c1 + c2 - 2, 0, 1);
      if !top {
        NoRoomAfter(s0, s2, c1 + c2, c1 + c2 - 2, 0, 1);
      }
    }
  }

  lemma NoRoomFor(s: Stock, c: nat, i: nat, c': nat, i': nat)
    requires !Room(s, c, i) && c <= c' && i <= i'
    ensures !Room(s, c', i')
  {
  }

  lemma NoRoomAfter(s0: Stock, s1: Stock, c1: nat, i1: nat, c2: nat, i2: nat)
    requires Paid(s0, s1, c1, i1) && !Room(s1, c2, i2)
    ensures !Room(s0, c1 + c2, i1 + i2)
  {
    PaidThen(s0, s1, s1, c1, i1, c2, i2);
  }

  /** A bare arena needs, and gives, the exact bytes. */
  lemma BareBuild(s: Stock, s': Stock, n: nat, built: bool)
    requires BuildTook(s, s', n, built)
    ensures Bare(s) && s.gap >= BuildBytes(n) ==> built
    ensures built ==> Bumped(s, s', BuildBytes(n))
  {
    if built {
      PaidBytes(s, s', Leaves(n), Leaves(n) - 1);
    }
    hide Leaves;
  }

  lemma LeafBuilt(m: Mem, s: Slot, c: Chunk, vals: seq<nat>)
    requires s.ChunkSlot? && s in m && m[s] == ChunkNode(c)
    requires 0 < |vals| <= CHUNK_CAP && Ascending(vals) && c == FromSorted(vals)
    ensures Built(m, Leaf(s, c), vals) && Slots(Leaf(s, c)) == {s} && Shaped(Leaf(s, c), vals)
  {
  }

  lemma BuiltKept(m0: Mem, u0: set<Slot>, m: Mem, u: set<Slot>, added: set<Slot>, t: Tree, vals: seq<nat>)
    requires Grown(m0, u0, m, u, added) && Built(m0, t, vals) && Slots(t) <= u0
    ensures Built(m, t, vals)
  {
    GrownStored(m0, u0, m, u, added, t);
  }

  /** Build over a sorted slice, splitting at the leaf-count midpoint. */
  method BuildBalanced(a: Arena, vals: seq<nat>) returns (r: Option<Slot>, ghost t: Tree, ghost added: set<Slot>)
    requires a.Valid() && vals != [] && Ascending(vals)
    modifies a
    ensures a.Valid() && a.SameGuard() && Grown(old(a.mem), old(a.inUse), a.mem, a.inUse, added)
    ensures r.None? ==> a.Exhausted()
    ensures r.Some? ==> t.slot == r.value && Slots(t) == added && Built(a.mem, t, vals) && Shaped(t, vals)
    ensures BuildTook(old(a.Supply()), a.Supply(), |vals|, r.Some?)
    decreases |vals|
  {
    hide *;
    if |vals| <= CHUNK_CAP {
      var c := FromSorted(vals);
      ghost var s0 := a.Supply();
      r, added := PutChunk(a, c);
      LeafTook(s0, a.Supply(), r.Some?, |vals|);
      t := Leaf(if r.Some? then r.value else ChunkSlot(0), c);
      if r.Some? {
        LeafBuilt(a.mem, r.value, c, vals);
      }
    } else {
      r, t, added := BuildHalves(a, vals, BuildSplit(|vals|));
    }
  }

  lemma JoinGrown(m0: Mem, u0: set<Slot>, m1: Mem, u1: set<Slot>, f1: set<Slot>, m2: Mem, u2: set<Slot>, f2: set<Slot>,
                  m3: Mem, u3: set<Slot>, l: Tree, r: Tree, s: Slot, vals: seq<nat>, mid: nat)
    requires |vals| > CHUNK_CAP && Ascending(vals) && mid == BuildSplit(|vals|) && mid < |vals|
    requires Grown(m0, u0, m1, u1, f1) && Slots(l) == f1 && Built(m1, l, vals[..mid])
    requires Grown(m1, u1, m2, u2, f2) && Slots(r) == f2 && Built(m2, r, vals[mid..])
    requires Shaped(l, vals[..mid]) && Shaped(r, vals[mid..])
    requires Grown(m2, u2, m3, u3, {s}) && s.InteriorSlot?
    requires s in m3 && m3[s] == InteriorNode(l.slot, r.slot, |vals|, vals[mid])
    ensures Built(m3, Branch(s, l, r, |vals|, vals[mid]), vals) && Shaped(Branch(s, l, r, |vals|, vals[mid]), vals)
    ensures Slots(Branch(s, l, r, |vals|, vals[mid])) == f1 + f2 + {s}
  {
    hide Built, Stored, Slots;
    BuiltKept(m1, u1, m2, u2, f2, l, vals[..mid]);
    BuiltKept(m2, u2, m3, u3, {s}, l, vals[..mid]);
    BuiltKept(m2, u2, m3, u3, {s}, r, vals[mid..]);
    JoinBuilt(m3, vals, mid, l, r, s);
  }

  method BuildHalves(a: Arena, vals: seq<nat>, mid: nat) returns (r: Option<Slot>, ghost t: Tree, ghost added: set<Slot>)
    requires a.Valid() && |vals| > CHUNK_CAP && Ascending(vals) && mid == BuildSplit(|vals|)
    modifies a
    ensures a.Valid() && a.SameGuard() && Grown(old(a.mem), old(a.inUse), a.mem, a.inUse, added)
    ensures r.None? ==> a.Exhausted()
    ensures r.Some? ==> t.slot == r.value && Slots(t) == added && Built(a.mem, t, vals) && Shaped(t, vals)
    ensures BuildTook(old(a.Supply()), a.Supply(), |vals|, r.Some?)
    decreases |vals|, 0
  {
    hide Built, Grown, Stored, Slots, Elems, Leaves, Ascending;
    hide ValidSlots, ValidQueues, ValidCursors, QueueBag, Arena.Exhausted, Shaped, BuildTook, InteriorTaken, BuildBytes;
    SplitLeaves(|vals|);
    SliceAscending(vals, 0, mid);
    SliceAscending(vals, mid, |vals|);
    assert vals[mid..|vals|] == vals[mid..];
    ghost var m0, u0, s0 := a.mem, a.inUse, a.Supply();
    var left, l, f1 := BuildBalanced(a, vals[..mid]);
    ghost var s1 := a.Supply();
    if left.None? {
      HalvesTook(s0, s1, s1, s1, |vals|, false, false, false);
      return None, l, f1;
    }
    ghost var m1, u1 := a.mem, a.inUse;
    var right, r', f2 := BuildBalanced(a, vals[mid..]);
    GrownTrans(m0, u0, m1, u1, f1, a.mem, a.inUse, f2);
    ghost var s2 := a.Supply();
    if right.None? {
      HalvesTook(s0, s1, s2, s2, |vals|, true, false, false);
      return None, l, f1 + f2;
    }
    ghost var m2, u2 := a.mem, a.inUse;
    var top, f3 := PutInterior(a, left.value, right.value, |vals|, vals[mid]);
    GrownTrans(m0, u0, m2, u2, f1 + f2, a.mem, a.inUse, f3);
    HalvesTook(s0, s1, s2, a.Supply(), |vals|, true, true, top.Some?);
    if top.None? {
      return None, l, f1 + f2 + f3;
    }
    JoinGrown(m0, u0, m1, u1, f1, m2, u2, f2, a.mem, a.inUse, l, r', top.value, vals, mid);
    return top, Branch(top.value, l, r', |vals|, vals[mid]), f1 + f2 + f3;
  }

  // -- Traversal ------------------------------------------------------------------

  /** The right subtrees a traversal still owes, the last pushed first. */
  ghost function Owed(stack: seq<Tree>): seq<nat> {
    if stack == [] then [] else Elems(stack[|stack| - 1]) + Owed(stack[..|stack| - 1])
  }

  ghost function OwedSlots(stack: seq<Tree>): multiset<Slot> {
    if stack == [] then multiset{} else multiset(Slots(stack[|stack| - 1])) + OwedSlots(stack[..|stack| - 1])
  }

  ghost function Weight(t: Tree): nat {
    match t
    case Leaf(_, _) => 1
    case Branch(_, l, r, _, _) => 1 + Weight(l) + Weight(r)
  }

  ghost function StackWeight(stack: seq<Tree>): nat {
    if stack == [] then 0 else Weight(stack[|stack| - 1]) + StackWeight(stack[..|stack| - 1])
  }

  /** The stack of slots mirrors the owed subtrees. */
  ghost predicate Mirrors(m: Mem, stack: seq<Slot>, owed: seq<Tree>) {
    && |stack| == |owed|
    && forall k :: 0 <= k < |stack| ==> stack[k] == owed[k].slot && Stored(m, owed[k])
  }

  /** How full the stack will get below the subtrees it owes, each visited once those above it are popped. */
  ghost function Reach(stack: seq<Tree>): nat {
    if stack == [] then 0 else Max(|stack| - 1 + LeftSteps(stack[|stack| - 1]), Reach(stack[..|stack| - 1]))
  }

  lemma PushStack(stack: seq<Tree>, t: Tree)
    ensures Owed(stack + [t]) == Elems(t) + Owed(stack)
    ensures OwedSlots(stack + [t]) == multiset(Slots(t)) + OwedSlots(stack)
    ensures StackWeight(stack + [t]) == Weight(t) + StackWeight(stack)
  {
    hide Reach;
    assert (stack + [t])[..|stack|] == stack;
  }

  /** The fullest the stack has been, and will be under `ct` and what it owes, is `top`. */
  ghost predicate Tracks(top: nat, peak: nat, ct: Tree, owed: seq<Tree>) {
    top == Max(peak, Max(|owed| + LeftSteps(ct), Reach(owed))) && |owed| <= peak
  }

  lemma TrackStart(t: Tree)
    ensures Tracks(LeftSteps(t), 0, t, [])
  {
  }

  lemma TrackLeft(top: nat, peak: nat, ct: Tree, owed: seq<Tree>)
    requires Tracks(top, peak, ct, owed) && ct.Branch?
    ensures Tracks(top, Max(peak, |owed| + 1), ct.left, owed + [ct.right])
  {
    var stack := owed + [ct.right];
    assert stack[..|stack| - 1] == owed && stack[|stack| - 1] == ct.right;
    assert Reach(stack) == Max(|owed| + LeftSteps(ct.right), Reach(owed));
    assert LeftSteps(ct) == Max(1 + LeftSteps(ct.left), LeftSteps(ct.right));
    hide Reach, LeftSteps;
  }

  lemma TrackOver(top: nat, peak: nat, ct: Tree, owed: seq<Tree>)
    requires Tracks(top, peak, ct, owed)
    ensures peak <= top && |owed| <= top
  {
  }

  lemma TrackPop(top: nat, peak: nat, ct: Tree, owed: seq<Tree>)
    requires Tracks(top, peak, ct, owed) && ct.Leaf?
    ensures owed == [] ==> top == peak
    ensures owed != [] ==> Tracks(top, peak, owed[|owed| - 1], owed[..|owed| - 1])
  {
    hide LeftSteps;
    assert LeftSteps(ct) == 0 by { LeafElems(ct); }
  }

  /** The read side of a node, decoded from its tagged slot. */
  lemma ReadBranch(m: Mem, t: Tree)
    requires Stored(m, t)
    ensures t.slot in m
    ensures t.slot.ChunkSlot? ==> t.Leaf? && m[t.slot] == ChunkNode(t.chunk)
    ensures t.slot.InteriorSlot? ==>
      && t.Branch? && m[t.slot] == InteriorNode(t.left.slot, t.right.slot, t.count, t.key)
      && Stored(m, t.left) && Stored(m, t.right)
      && Elems(t) == Elems(t.left) + Elems(t.right)
      && Weight(t) == 1 + Weight(t.left) + Weight(t.right)
  {
  }

  /**
   * Visit every chunk in order with an explicit stack. `peak`, the most entries the stack held, is the
   * most left turns on any path: right subtrees wait on the stack, and going right pops one. A tree that
   * needs more than the stack has overruns it.
   */
  method CollectInto(m: Mem, root: Slot, buf: seq<nat>, ghost t: Tree) returns (ok: bool, out: seq<nat>, ghost peak: nat)
    requires Stored(m, t) && t.slot == root
    ensures ok <==> LeftSteps(t) <= MAX_DEPTH
    ensures ok ==> out == buf + Elems(t)
    ensures peak == (if ok then LeftSteps(t) else MAX_DEPTH) <= LeftSteps(t) <= Height(t)
  {
    hide Stored, Elems, Height, LeftSteps, Weight, Owed, StackWeight, OwedSlots, Tracks;
    LeftWithinHeight(t);
    TrackStart(t);
    ok, out, peak := true, buf, 0;
    var stack: seq<Slot> := [];
    var cur := root;
    ghost var owed: seq<Tree>, ct := [], t;
    var done := false;
    OwedNothing();
    while !done
      invariant Mirrors(m, stack, owed) && |stack| <= MAX_DEPTH && peak <= MAX_DEPTH
      invariant if done then peak == LeftSteps(t) else Tracks(LeftSteps(t), peak, ct, owed)
      invariant done ==> out == buf + Elems(t)
      invariant !done ==> ct.slot == cur && Stored(m, ct)
      invariant !done ==> out + (Elems(ct) + Owed(owed)) == buf + Elems(t)
      decreases if done then 0 else Weight(ct) + StackWeight(owed) + 1
    {
      ReadBranch(m, ct);
      match m[cur]
      case InteriorNode(left, right, _, _) =>
        TrackLeft(LeftSteps(t), peak, ct, owed);
        if |stack| == MAX_DEPTH {
          TrackOver(LeftSteps(t), Max(peak, |owed| + 1), ct.left, owed + [ct.right]);
          return false, out, MAX_DEPTH;
        }
        PushStack(owed, ct.right);
        ConcatAssoc(Elems(ct.left), Elems(ct.right), Owed(owed));
        stack := stack + [right];
        owed, ct := owed + [ct.right], ct.left;
        cur := left;
        peak := Max(peak, |stack|);
      case ChunkNode(chunk) =>
        LeafElems(ct);
        TrackPop(LeftSteps(t), peak, ct, owed);
        ConcatAssoc(out, Elems(ct), Owed(owed));
        out := out + chunk.Vals();
        if stack == [] {
          OwedNothing();
          done := true;
        } else {
          PopOwed(owed);
          ghost var last := owed[|owed| - 1];
          cur := stack[|stack| - 1];
          stack := stack[..|stack| - 1];
          owed, ct := owed[..|owed| - 1], last;
        }
    }
  }

  lemma OwedNothing()
    ensures Owed([]) == [] && OwedSlots([]) == multiset{} && StackWeight([]) == 0
  {
  }

  lemma LeafElems(t: Tree)
    requires t.Leaf?
    ensures Elems(t) == t.chunk.Vals() && Weight(t) == 1 && Slots(t) == {t.slot} && Height(t) == LeftSteps(t) == 0
  {
  }

  lemma PopOwed(stack: seq<Tree>)
    requires stack != []
    ensures Owed(stack) == Elems(stack[|stack| - 1]) + Owed(stack[..|stack| - 1])
    ensures OwedSlots(stack) == multiset(Slots(stack[|stack| - 1])) + OwedSlots(stack[..|stack| - 1])
    ensures StackWeight(stack) == Weight(stack[|stack| - 1]) + StackWeight(stack[..|stack| - 1])
  {
    hide Reach;
  }

  lemma ConcatAssoc(a: seq<nat>, b: seq<nat>, c: seq<nat>)
    ensures (a + b) + c == a + (b + c)
  {
  }

  // -- Retiring a whole tree --------------------------------------------------------

  method LogSlot(log: RetireLog, s: Slot)
    modifies log
    ensures s.ChunkSlot? ==> log.chunks == old(log.chunks) + [s.idx] && log.interiors == old(log.interiors)
    ensures s.InteriorSlot? ==> log.interiors == old(log.interiors) + [s.idx] && log.chunks == old(log.chunks)
    ensures log.Contents() == old(log.Contents()) + multiset{s}
  {
    hide IdxBag;
    SnocBag(false, log.chunks, s.idx);
    SnocBag(true, log.interiors, s.idx);
    ghost var chunks, interiors := IdxBag(false, log.chunks), IdxBag(true, log.interiors);
    match s
    case ChunkSlot(i) =>
      log.chunks := log.chunks + [i];
      BagAside(chunks, interiors, s);
    case InteriorSlot(i) => log.interiors := log.interiors + [i];
      BagAssoc(chunks, interiors, multiset{s});
  }

  lemma BagAside(a: multiset<Slot>, b: multiset<Slot>, s: Slot)
    ensures (a + multiset{s}) + b == (a + b) + multiset{s}
  {
  }

  lemma BranchSlots(t: Tree)
    requires t.Branch? && Apart(t)
    ensures multiset(Slots(t)) == multiset{t.slot} + (multiset(Slots(t.left)) + multiset(Slots(t.right)))
    ensures Apart(t.left) && Apart(t.right)
  {
    var l, r := Slots(t.left), Slots(t.right);
    assert multiset(l + r) == multiset(l) + multiset(r);
    assert Slots(t) == {t.slot} + (l + r);
  }

  ghost predicate AllApart(ts: seq<Tree>) {
    forall k :: 0 <= k < |ts| ==> Apart(ts[k])
  }

  /** Log every node of a tree, each once, with the same stack. */
  method RetireSubtree(m: Mem, root: Slot, log: RetireLog, ghost t: Tree) returns (ok: bool, ghost peak: nat)
    requires Stored(m, t) && t.slot == root && Apart(t)
    modifies log
    ensures ok <==> LeftSteps(t) <= MAX_DEPTH
    ensures ok ==> log.Contents() == old(log.Contents()) + multiset(Slots(t)) && |old(log.chunks)| < |log.chunks|
    ensures old(log.chunks) <= log.chunks && old(log.interiors) <= log.interiors
    ensures peak == (if ok then LeftSteps(t) else MAX_DEPTH) <= LeftSteps(t) <= Height(t)
  {
    hide Stored, Slots, Apart, Height, LeftSteps, Weight, Owed, StackWeight, OwedSlots, Tracks, Bag, Elems;
    LeftWithinHeight(t);
    TrackStart(t);
    ok, peak := true, 0;
    var stack: seq<Slot> := [];
    var cur := root;
    ghost var owed: seq<Tree>, ct := [], t;
    var done := false;
    OwedNothing();
    while !done
      invariant Mirrors(m, stack, owed) && |stack| <= MAX_DEPTH && peak <= MAX_DEPTH
      invariant if done then peak == LeftSteps(t) else Tracks(LeftSteps(t), peak, ct, owed)
      invariant AllApart(owed) && Apart(ct)
      invariant old(log.chunks) <= log.chunks && old(log.interiors) <= log.interiors
      invariant done ==> |old(log.chunks)| < |log.chunks|
      invariant done ==> log.Contents() == old(log.Contents()) + multiset(Slots(t))
      invariant !done ==> ct.slot == cur && Stored(m, ct)
      invariant !done ==>
        log.Contents() + (multiset(Slots(ct)) + OwedSlots(owed)) == old(log.Contents()) + multiset(Slots(t))
      decreases if done then 0 else Weight(ct) + StackWeight(owed) + 1
    {
      ReadBranch(m, ct);
      ghost var before := log.Contents();
      match m[cur]
      case InteriorNode(left, right, _, _) =>
        TrackLeft(LeftSteps(t), peak, ct, owed);
        if |stack| == MAX_DEPTH {
          TrackOver(LeftSteps(t), Max(peak, |owed| + 1), ct.left, owed + [ct.right]);
          return false, MAX_DEPTH;
        }
        BranchSlots(ct);
        PushStack(owed, ct.right);
        stack := stack + [right];
        LogSlot(log, cur);
        SpendBranch(before, cur, multiset(Slots(ct.left)), multiset(Slots(ct.right)), OwedSlots(owed));
        owed, ct := owed + [ct.right], ct.left;
        cur := left;
        peak := Max(peak, |stack|);
      case ChunkNode(_) =>
        LeafElems(ct);
        TrackPop(LeftSteps(t), peak, ct, owed);
        LogSlot(log, cur);
        BagAssoc(before, multiset{cur}, OwedSlots(owed));
        if stack == [] {
          OwedNothing();
          done := true;
        } else {
          PopOwed(owed);
          ghost var last := owed[|owed| - 1];
          cur := stack[|stack| - 1];
          stack := stack[..|stack| - 1];
          owed, ct := owed[..|owed| - 1], last;
        }
    }
  }

  lemma SpendBranch(before: multiset<Slot>, s: Slot, l: multiset<Slot>, r: multiset<Slot>, owed: multiset<Slot>)
    ensures before + ((multiset{s} + (l + r)) + owed) == (before + multiset{s}) + (l + (r + owed))
  {
  }
}
