/**
 * C-trees as they lie in the arena: nodes in numbered slots, and the tree a root slot denotes.
 *
 * `Tree` carries the slot of each of its nodes, so that "which slots does this version use" and
 * "what does it contain" are functions of the same value. `Stored` ties it to memory.
 */
module Trees {
  import opened Options
  import opened Sorted
  import opened Chunks

  /** A tagged offset: the tag picks the region, the index the slot within it. */
  datatype Slot = ChunkSlot(idx: nat) | InteriorSlot(idx: nat)

  function SlotOf(interior: bool, i: nat): Slot {
    if interior then InteriorSlot(i) else ChunkSlot(i)
  }

  /** What a slot holds. A slot on a free list holds the link to the next free slot. */
  datatype Node =
    | ChunkNode(chunk: Chunk)
    | InteriorNode(left: Slot, right: Slot, count: nat, key: nat)
    | FreeLink(next: Option<nat>)

  type Mem = map<Slot, Node>

  datatype Tree =
    | Leaf(slot: Slot, chunk: Chunk)
    | Branch(slot: Slot, left: Tree, right: Tree, count: nat, key: nat)

  ghost function Elems(t: Tree): seq<nat> {
    match t
    case Leaf(_, chunk) => chunk.Vals()
    case Branch(_, l, r, _, _) => Elems(l) + Elems(r)
  }

  ghost function Slots(t: Tree): set<Slot> {
    match t
    case Leaf(s, _) => {s}
    case Branch(s, l, r, _, _) => {s} + Slots(l) + Slots(r)
  }

  /** The element count a node records for its subtree. */
  function Size(t: Tree): nat {
    match t
    case Leaf(_, chunk) => chunk.count
    case Branch(_, _, _, count, _) => count
  }

  /** Interiors on the longest root-to-leaf path. */
  ghost function Height(t: Tree): nat {
    match t
    case Leaf(_, _) => 0
    case Branch(_, l, r, _, _) => 1 + Max(Height(l), Height(r))
  }

  /** Most left turns on any root-to-leaf path. */
  ghost function LeftSteps(t: Tree): nat {
    match t
    case Leaf(_, _) => 0
    case Branch(_, l, r, _, _) => Max(1 + LeftSteps(l), LeftSteps(r))
  }

  lemma {:induction false} LeftWithinHeight(t: Tree)
    ensures LeftSteps(t) <= Height(t)
  {
    match t
    case Leaf(_, _) =>
    case Branch(_, l, r, _, _) =>
      LeftWithinHeight(l);
      LeftWithinHeight(r);
  }

  /** Interiors that a descent records before it gives up, and entries on the stack of a traversal. */
  const MAX_DEPTH: nat := 64

  function Max(a: nat, b: nat): nat {
    if a < b then b else a
  }

  /** Memory holds exactly the nodes of `t` at the slots of `t`. */
  ghost predicate Stored(m: Mem, t: Tree) {
    && t.slot in m
    && match t
       case Leaf(s, chunk) => s.ChunkSlot? && m[s] == ChunkNode(chunk)
       case Branch(s, l, r, count, key) =>
         && s.InteriorSlot? && m[s] == InteriorNode(l.slot, r.slot, count, key)
         && Stored(m, l) && Stored(m, r)
  }

  /** No slot serves two nodes of the tree. */
  ghost predicate Apart(t: Tree) {
    match t
    case Leaf(_, _) => true
    case Branch(s, l, r, _, _) =>
      && Apart(l) && Apart(r)
      && s !in Slots(l) && s !in Slots(r) && Slots(l) !! Slots(r)
  }

  /** Search-tree order, correct counts, and non-empty chunks. */
  ghost predicate Ordered(t: Tree) {
    match t
    case Leaf(_, chunk) => chunk.Valid() && chunk.count > 0
    case Branch(_, l, r, count, key) =>
      && Ordered(l) && Ordered(r)
      && count == Size(l) + Size(r)
      && AllBelow(Elems(l), key) && AllAtLeast(Elems(r), key)
  }

  ghost predicate Sound(t: Tree) {
    Ordered(t) && Apart(t)
  }

  lemma {:induction false} OrderedElems(t: Tree)
    requires Ordered(t)
    ensures Ascending(Elems(t)) && |Elems(t)| == Size(t) > 0
  {
    match t
    case Leaf(_, _) =>
    case Branch(_, l, r, _, key) =>
      OrderedElems(l);
      OrderedElems(r);
      ConcatAscending(Elems(l), Elems(r), key);
  }

  /** A tree reads the same in any memory that agrees on its slots. */
  lemma {:induction false} StoredFrame(m: Mem, m': Mem, t: Tree)
    requires Stored(m, t)
    requires forall s :: s in Slots(t) ==> s in m && s in m' && m'[s] == m[s]
    ensures Stored(m', t)
  {
    match t
    case Leaf(_, _) =>
    case Branch(_, l, r, _, _) =>
      StoredFrame(m, m', l);
      StoredFrame(m, m', r);
  }

  /** A root slot denotes one tree only. */
  lemma {:induction false} StoredUnique(m: Mem, t: Tree, t': Tree)
    requires Stored(m, t) && Stored(m, t') && t.slot == t'.slot
    ensures t == t'
    decreases t
  {
    match t
    case Leaf(_, _) =>
    case Branch(_, l, r, _, _) =>
      StoredUnique(m, l, t'.left);
      StoredUnique(m, r, t'.right);
  }

  lemma {:induction false} StoredSlots(m: Mem, t: Tree)
    requires Stored(m, t)
    ensures Slots(t) <= m.Keys && t.slot in Slots(t)
  {
    match t
    case Leaf(_, _) =>
    case Branch(_, l, r, _, _) =>
      StoredSlots(m, l);
      StoredSlots(m, r);
  }
}
