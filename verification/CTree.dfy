/** Path-copying insertion into scapegoat-balanced C-trees, with an exact log of superseded slots. */
module CTrees {
  import opened Options
  import opened Sorted
  import opened Chunks
  import opened Trees
  import opened Balance
  import opened Pending
  import opened Arenas
  import opened Builds
  import opened Paths

  /** `Overran`: the traversal before a rebuild asked for more entries than its stack has, and panicked. */
  datatype InsertResult = Inserted(root: Slot) | Duplicate | ArenaFull | Overran

  /** Does the tree contain `val`? */
  method Contains(m: Mem, root: Option<Slot>, val: nat, ghost t: Option<Tree>) returns (r: bool)
    requires root.None? <==> t.None?
    requires t.Some? ==> Stored(m, t.value) && Sound(t.value) && t.value.slot == root.value
    ensures r <==> t.Some? && val in Elems(t.value)
  {
    if root.None? {
      return false;
    }
    var cur := root.value;
    ghost var ct := t.value;
    while m[cur].InteriorNode?
      invariant Stored(m, ct) && Ordered(ct) && ct.slot == cur
      invariant val in Elems(t.value) <==> val in Elems(ct)
      decreases ct
    {
      var node := m[cur];
      if val < node.key {
        NotAbove(Elems(ct.right), ct.key, val);
        cur, ct := node.left, ct.left;
      } else {
        NotBelow(Elems(ct.left), ct.key, val);
        cur, ct := node.right, ct.right;
      }
    }
    var found, _ := Search(m[cur].chunk, val);
    r := found;
  }

  lemma SeeksSnoc(sp: seq<Tree>, dirs: seq<bool>, val: nat)
    requires Seeks(sp, dirs, val) && sp[|dirs|].Branch?
    ensures var t := sp[|dirs|];
      Seeks(sp + [Child(t, val < t.key)], dirs + [val < t.key], val)
  {
  }

  /** Walk to the leaf for `val`, recording the interiors and turns; too deep a path is refused. */
  method Descend(m: Mem, root: Slot, val: nat, ghost t: Tree)
    returns (ok: bool, path: seq<Slot>, wentLeft: seq<bool>, leaf: Slot, chunk: Chunk, ghost sp: seq<Tree>)
    requires Stored(m, t) && t.slot == root
    ensures ok <==> PathLen(t, val) <= MAX_DEPTH
    ensures ok ==> |path| == PathLen(t, val)
    ensures ok ==> Seeks(sp, wentLeft, val) && sp[0] == t && |path| == |wentLeft|
    ensures ok ==> sp[|path|] == Leaf(leaf, chunk)
    ensures ok ==> forall i :: 0 <= i < |path| ==> path[i] == sp[i].slot && path[i].InteriorSlot?
  {
    path, wentLeft, leaf, chunk := [], [], root, Chunk(0, []);
    var cur := root;
    sp := [t];
    ghost var ct := t;
    while m[cur].InteriorNode?
      invariant Seeks(sp, wentLeft, val) && sp[0] == t && |path| == |wentLeft| <= MAX_DEPTH
      invariant Stored(m, ct) && ct.slot == cur && ct == sp[|path|]
      invariant forall i :: 0 <= i < |path| ==> path[i] == sp[i].slot && path[i].InteriorSlot?
      invariant |path| + PathLen(ct, val) == PathLen(t, val)
      decreases ct
    {
      if |path| >= MAX_DEPTH {
        return false, path, wentLeft, leaf, chunk, sp;
      }
      var node := m[cur];
      SeeksSnoc(sp, wentLeft, val);
      path := path + [cur];
      wentLeft := wentLeft + [val < node.key];
      ct := Child(ct, val < node.key);
      sp := sp + [ct];
      cur := if val < node.key then node.left else node.right;
    }
    ok, leaf, chunk := true, cur, m[cur].chunk;
  }

  // -- The leaf -----------------------------------------------------------------

  datatype LeafOutcome = LeafDone | LeafDuplicate | LeafFull

  /** What replaces a leaf: one chunk, or two under a new interior. */
  ghost predicate LeafCopy(m: Mem, ct: Tree, vals: seq<nat>, levels: nat) {
    Stored(m, ct) && Sound(ct) && Elems(ct) == vals && Stump(ct, levels)
  }

  /** A leaf, or a balanced interior over two leaves. */
  ghost predicate Stump(ct: Tree, levels: nat) {
    Height(ct) == levels <= 1 && (ct.Branch? ==> !Unbalanced(ct))
  }

  /** Chunks that replace a leaf. */
  function LeafCost(full: bool): nat {
    if full then 2 else 1
  }

  /** Interiors that come with them. */
  function LeafLevels(full: bool): nat {
    if full then 1 else 0
  }

  /**
   * What replacing a leaf takes of the stock: exactly its slots, and room for them is what it needs. With no
   * chunk to be had it takes nothing.
   */
  ghost predicate LeafTook(s: Stock, s': Stock, full: bool, outcome: LeafOutcome) {
    && (outcome.LeafDuplicate? ==> s' == s)
    && (outcome.LeafDone? ==>
          Leaner(s, s', CHUNK_SLOT * LeafCost(full)) && Paid(s, s', LeafCost(full), LeafLevels(full)))
    && (outcome.LeafFull? ==>
          !Room(s, LeafCost(full), LeafLevels(full)) && (s.idle && ChunkBytes(s) < CHUNK_SLOT ==> s' == s))
  }

  lemma SplitTook(s0: Stock, s1: Stock, s2: Stock, s3: Stock, left: bool, right: bool, top: bool)
    requires ChunkTaken(s0, s1, left)
    requires if left then ChunkTaken(s1, s2, right) else !right && s2 == s1
    requires if right then InteriorTaken(s2, s3, top) else !top && s3 == s2
    ensures LeafTook(s0, s3, true, if top then LeafDone else LeafFull)
  {
    hide Room, Paid, ChunkTaken, InteriorTaken;
    PaidChunk(s0, s1, left);
    if !left {
      NoRoomFor(s0, 1, 0, 2, 1);
    } else {
      PaidChunk(s1, s2, right);
      if !right {
        NoRoomAfter(s0, s1, 1, 0, 1, 0);
        NoRoomFor(s0, 2, 0, 2, 1);
      } else {
        PaidThen(s0, s1, s2, 1, 0, 1, 0);
        PaidInterior(s2, s3, top);
        PaidThen(s0, s2, s3, 2, 0, 0, 1);
        if !top {
          NoRoomAfter(s0, s2, 2, 0, 0, 1);
        }
      }
    }
  }

  lemma OneTook(s: Stock, s': Stock, taken: bool)
    requires ChunkTaken(s, s', taken)
    ensures LeafTook(s, s', false, if taken then LeafDone else LeafFull)
  {
    PaidChunk(s, s', taken);
  }

  /** What hangs in the place of a leaf: one element more on the left, or a left half with the new element. */
  ghost predicate Sprouts(ct: Tree, chunk: Chunk, val: nat, levels: nat) {
    && LeftDepth(ct) == levels
    && (levels == 0 ==> LeftCount(ct) == chunk.count + 1 && RightSize(ct) == 0)
    && (levels > 0 && AllAtLeast(chunk.Vals(), val + 1) ==> LeftCount(ct) == RightSize(ct) == 8)
  }

  lemma SplitSprouts(ct: Tree, chunk: Chunk, val: nat)
    requires ct.Branch? && ct.left.Leaf? && ct.left.chunk.count + Size(ct.right) == 16
    requires AllAtLeast(chunk.Vals(), val + 1) ==> ct.left.chunk.count == 8
    ensures Sprouts(ct, chunk, val, 1)
  {
    assert LeftDepth(ct.left) == 0;
  }

  lemma OneChunk(m: Mem, s: Slot, c: Chunk)
    requires s.ChunkSlot? && s in m && m[s] == ChunkNode(c) && c.Valid() && c.count > 0
    ensures LeafCopy(m, Leaf(s, c), c.Vals(), 0) && Slots(Leaf(s, c)) == {s}
  {
  }

  lemma TwoChunks(m: Mem, s: Slot, ls: Slot, rs: Slot, l: Chunk, r: Chunk, key: nat)
    requires ls.ChunkSlot? && rs.ChunkSlot? && s.InteriorSlot? && ls != rs
    requires ls in m && rs in m && s in m && m[ls] == ChunkNode(l) && m[rs] == ChunkNode(r)
    requires m[s] == InteriorNode(ls, rs, l.count + r.count, key)
    requires l.Valid() && r.Valid() && l.count + r.count == 16 && 7 <= l.count <= 9
    requires AllBelow(l.Vals(), key) && AllAtLeast(r.Vals(), key)
    ensures var ct := Branch(s, Leaf(ls, l), Leaf(rs, r), l.count + r.count, key);
      LeafCopy(m, ct, l.Vals() + r.Vals(), 1) && Slots(ct) == {ls} + {rs} + {s}
  {
    assert Sound(Leaf(ls, l)) && Sound(Leaf(rs, r));
    assert Size(Leaf(ls, l)) == l.count && Size(Leaf(rs, r)) == r.count;
  }

  /** Split a full chunk around its middle and put `val` on its side. */
  method SplitInsert(chunk: Chunk, val: nat) returns (dup: bool, l: Chunk, r: Chunk, key: nat)
    requires chunk.Valid() && chunk.count == CHUNK_CAP
    ensures dup <==> val in chunk.Vals()
    ensures !dup ==>
      && l.Valid() && r.Valid() && l.count + r.count == 16 && 7 <= l.count <= 9
      && AllBelow(l.Vals(), key) && AllAtLeast(r.Vals(), key)
      && l.Vals() + r.Vals() == Ins(chunk.Vals(), val)
      && (AllAtLeast(chunk.Vals(), val + 1) ==> l.count == 8)
  {
    l, r := Split(chunk);
    key := r.data[0];
    ghost var l0, r0 := l.Vals(), r.Vals();
    assert forall x :: x in chunk.Vals() <==> x in l0 || x in r0;
    assert r0[0] == key && key in chunk.Vals();
    if val < key {
      NotAbove(r0, key, val);
      var c := Insert(l, val);
      dup := c.None?;
      if c.Some? {
        l := c.value;
        InsLeft(l0, r0, key, val);
        InsBelow(l0, val, key);
      }
    } else {
      NotBelow(l0, key, val);
      var c := Insert(r, val);
      dup := c.None?;
      if c.Some? {
        r := c.value;
        InsRight(l0, r0, key, val);
        InsAbove(r0, val, key);
      }
    }
  }

  /** Three allocations in a row, kept together. */
  method PutSplit(a: Arena, l: Chunk, r: Chunk, key: nat)
    returns (s: Option<Slot>, ghost ct: Tree, ghost added: set<Slot>)
    requires a.Valid()
    requires l.Valid() && r.Valid() && l.count + r.count == 16 && 7 <= l.count <= 9
    requires AllBelow(l.Vals(), key) && AllAtLeast(r.Vals(), key)
    modifies a
    ensures a.Valid() && a.SameGuard() && Grown(old(a.mem), old(a.inUse), a.mem, a.inUse, added)
    ensures s.None? ==> a.Exhausted()
    ensures s.Some? ==> LeafCopy(a.mem, ct, l.Vals() + r.Vals(), 1) && ct.slot == s.value && Slots(ct) == added
    ensures s.Some? ==> ct.Branch? && ct.left.Leaf? && ct.left.chunk == l && l.count + Size(ct.right) == 16
    ensures LeafTook(old(a.Supply()), a.Supply(), true, if s.Some? then LeafDone else LeafFull)
  {
    hide LeafCopy, ValidSlots, ValidQueues, ValidCursors, Arena.Exhausted, QueueBag, AllBelow, AllAtLeast, Ascending;
    hide ChunkTaken, InteriorTaken, LeafTook, Arena.Supply;
    ghost var m0, u0, s0 := a.mem, a.inUse, a.Supply();
    ct := Leaf(ChunkSlot(0), l);
    var ls, f1 := PutChunk(a, l);
    ghost var s1 := a.Supply();
    if ls.None? {
      SplitTook(s0, s1, s1, s1, false, false, false);
      return None, ct, f1;
    }
    ghost var m1, u1 := a.mem, a.inUse;
    var rs, f2 := PutChunk(a, r);
    GrownTrans(m0, u0, m1, u1, f1, a.mem, a.inUse, f2);
    ghost var s2 := a.Supply();
    if rs.None? {
      SplitTook(s0, s1, s2, s2, true, false, false);
      return None, ct, f1 + f2;
    }
    ghost var m2, u2 := a.mem, a.inUse;
    var top, f3 := PutInterior(a, ls.value, rs.value, l.count + r.count, key);
    GrownTrans(m0, u0, m2, u2, f1 + f2, a.mem, a.inUse, f3);
    SplitTook(s0, s1, s2, a.Supply(), true, true, top.Some?);
    if top.None? {
      return None, ct, f1 + f2 + f3;
    }
    TwoChunks(a.mem, top.value, ls.value, rs.value, l, r, key);
    return top, Branch(top.value, Leaf(ls.value, l), Leaf(rs.value, r), l.count + r.count, key), f1 + f2 + f3;
  }

  method InsertLeaf(a: Arena, chunk: Chunk, val: nat)
    returns (outcome: LeafOutcome, child: Slot, levels: nat, ghost ct: Tree, ghost added: set<Slot>)
    requires a.Valid() && chunk.Valid() && chunk.count > 0
    modifies a
    ensures a.Valid() && a.SameGuard() && Grown(old(a.mem), old(a.inUse), a.mem, a.inUse, added)
    ensures outcome.LeafDuplicate? <==> val in chunk.Vals()
    ensures outcome.LeafDuplicate? ==> added == {}
    ensures outcome.LeafFull? ==> a.Exhausted()
    ensures outcome.LeafDone? ==> levels <= 1 && LeafCopy(a.mem, ct, Ins(chunk.Vals(), val), levels)
                                  && ct.slot == child && Slots(ct) == added
    ensures outcome.LeafDone? ==> levels == if chunk.count == CHUNK_CAP then 1 else 0
    ensures outcome.LeafDone? ==> Sprouts(ct, chunk, val, levels)
    ensures LeafTook(old(a.Supply()), a.Supply(), chunk.count == CHUNK_CAP, outcome)
  {
    hide LeafCopy, ValidSlots, ValidQueues, ValidCursors, Arena.Exhausted, QueueBag, Ins, Ascending, ChunkTaken, Arena.Supply;
    ghost var s0 := a.Supply();
    child, levels, ct, added := ChunkSlot(0), 0, Leaf(ChunkSlot(0), chunk), {};
    if chunk.count == CHUNK_CAP {
      var dup, l, r, key := SplitInsert(chunk, val);
      if dup {
        return LeafDuplicate, child, levels, ct, added;
      }
      var s;
      s, ct, added := PutSplit(a, l, r, key);
      if s.None? {
        return LeafFull, child, levels, ct, added;
      }
      SplitSprouts(ct, chunk, val);
      return LeafDone, s.value, 1, ct, added;
    }
    var c := Insert(chunk, val);
    if c.None? {
      return LeafDuplicate, child, levels, ct, added;
    }
    var s;
    s, added := PutChunk(a, c.value);
    OneTook(s0, a.Supply(), s.Some?);
    if s.None? {
      return LeafFull, child, levels, ct, added;
    }
    OneChunk(a.mem, s.value, c.value);
    return LeafDone, s.value, 0, Leaf(s.value, c.value), added;
  }

  // -- The path -----------------------------------------------------------------

  /** A stored tree that took the place of `t`, within a height bound. */
  ghost predicate Stands(m: Mem, t: Tree, nt: Tree, gone: set<Slot>, added: set<Slot>, bound: nat) {
    && Stored(m, nt) && Sound(nt)
    && Replaces(t, nt, gone, added)
    && Height(nt) <= Max(Height(t), bound)
  }

  /** One copied ancestor: the insertion below it becomes an insertion at it. */
  lemma CopyStep(m0: Mem, u0: set<Slot>, m1: Mem, u1: set<Slot>, f1: set<Slot>, m2: Mem, u2: set<Slot>,
                 t: Tree, left: bool, ct: Tree, s: Slot, val: nat, gone: set<Slot>, bound: nat)
    requires Grown(m0, u0, m1, u1, f1) && Grown(m1, u1, m2, u2, {s})
    requires t.Branch? && Stored(m0, t) && Sound(t) && Slots(t) <= u0 && (left <==> val < t.key)
    requires Stands(m1, Child(t, left), ct, gone, f1, bound) && Slots(ct) <= u1
    requires Ascending(Elems(Child(t, left))) && val !in Elems(Child(t, left))
    requires Elems(ct) == Ins(Elems(Child(t, left)), val)
    requires s.InteriorSlot? && s in m2
    requires m2[s] == InteriorNode(if left then ct.slot else t.left.slot, if left then t.right.slot else ct.slot,
                                   t.count + 1, t.key)
    ensures var nt := WithChild(t, left, s, ct, t.count + 1);
      && Stands(m2, t, nt, {t.slot} + gone, f1 + {s}, bound + 1)
      && Slots(nt) <= u2
    ensures Ascending(Elems(t)) && val !in Elems(t)
    ensures Elems(WithChild(t, left, s, ct, t.count + 1)) == Ins(Elems(t), val)
  {
    hide Ordered, Apart, Elems, Ascending, Ins;
    var nt := WithChild(t, left, s, ct, t.count + 1);
    assert Stored(m2, Sibling(t, left)) && Stored(m2, ct) by {
      GrownTrans(m0, u0, m1, u1, f1, m2, u2, {s});
      GrownStored(m0, u0, m2, u2, f1 + {s}, Sibling(t, left));
      GrownStored(m1, u1, m2, u2, {s}, ct);
    }
    StandsInsert(t, left, ct, s, val, gone, f1, bound);
  }

  lemma StandsInsert(t: Tree, left: bool, ct: Tree, s: Slot, val: nat, gone: set<Slot>, added: set<Slot>, bound: nat)
    requires t.Branch? && Sound(t) && (left <==> val < t.key) && Sound(ct)
    requires Replaces(Child(t, left), ct, gone, added) && Height(ct) <= Max(Height(Child(t, left)), bound)
    requires added !! Slots(t) && s !in added && s !in Slots(t)
    requires Ascending(Elems(Child(t, left))) && val !in Elems(Child(t, left))
    requires Elems(ct) == Ins(Elems(Child(t, left)), val)
    ensures var nt := WithChild(t, left, s, ct, t.count + 1);
      && Sound(nt) && Replaces(t, nt, {t.slot} + gone, added + {s}) && Height(nt) <= Max(Height(t), bound + 1)
      && Ascending(Elems(t)) && val !in Elems(t) && Elems(nt) == Ins(Elems(t), val)
  {
    hide Elems, Ascending, Ins, Slots;
    InsertOrdered(t, left, s, ct, val);
    ReplaceSlots(t, left, s, ct, t.count + 1, gone, added);
    ReplaceHeight(t, left, s, ct, t.count + 1, bound);
  }

  /** Positions `i..` of the path `sp` have been copied to `nsp`, with `val` inserted below. */
  ghost predicate Copied(m: Mem, u: set<Slot>, sp: seq<Tree>, nsp: seq<Tree>, dirs: seq<bool>, val: nat,
                         i: nat, added: set<Slot>, levels: nat)
  {
    && i <= |dirs| && |sp| == |dirs| + 1
    && Walk(nsp, dirs[i..])
    && Stands(m, sp[i], nsp[0], SpineSlots(sp, i), added, |dirs| - i + levels) && Slots(nsp[0]) <= u
    && Ascending(Elems(sp[i])) && val !in Elems(sp[i])
    && Elems(nsp[0]) == Ins(Elems(sp[i]), val)
    && SameSides(sp, nsp, dirs, i)
  }

  /** The copies hang the same off-path subtrees as the originals. */
  ghost predicate SameSides(sp: seq<Tree>, nsp: seq<Tree>, dirs: seq<bool>, i: nat)
  {
    && i <= |dirs| && |sp| == |dirs| + 1 && |nsp| == |dirs| - i + 1
    && forall k :: i <= k < |dirs| ==>
         sp[k].Branch? && nsp[k - i].Branch? && Sibling(nsp[k - i], dirs[k]) == Sibling(sp[k], dirs[k])
  }

  lemma SidesCons(sp: seq<Tree>, nt: Tree, nsp: seq<Tree>, dirs: seq<bool>, i: nat)
    requires 0 < i && SameSides(sp, nsp, dirs, i) && sp[i - 1].Branch? && nt.Branch?
    requires Sibling(nt, dirs[i - 1]) == Sibling(sp[i - 1], dirs[i - 1])
    ensures SameSides(sp, [nt] + nsp, dirs, i - 1)
  {
    var out := [nt] + nsp;
    forall k | i - 1 <= k < |dirs|
      ensures sp[k].Branch? && out[k - (i - 1)].Branch?
      ensures Sibling(out[k - (i - 1)], dirs[k]) == Sibling(sp[k], dirs[k])
    {
      if k >= i {
        assert out[k - (i - 1)] == nsp[k - i];
      }
    }
  }

  lemma CopiedLeaf(m0: Mem, u0: set<Slot>, m: Mem, u: set<Slot>, sp: seq<Tree>, dirs: seq<bool>, val: nat,
                   ct: Tree, added: set<Slot>, levels: nat)
    requires Grown(m0, u0, m, u, added)
    requires Seeks(sp, dirs, val) && Stored(m0, sp[0]) && Sound(sp[0]) && sp[|dirs|].Leaf?
    requires val !in Elems(sp[|dirs|]) && Ascending(Elems(sp[|dirs|]))
    requires LeafCopy(m, ct, Ins(Elems(sp[|dirs|]), val), levels) && Slots(ct) == added
    ensures Copied(m, u, sp, [ct], dirs, val, |dirs|, added, levels) && Stump(ct, levels)
  {
    assert SpineSlots(sp, |sp|) == {};
    assert SpineSlots(sp, |dirs|) == {sp[|dirs|].slot};
  }

  lemma CopiedStep(m0: Mem, u0: set<Slot>, m1: Mem, u1: set<Slot>, f1: set<Slot>, m2: Mem, u2: set<Slot>,
                   sp: seq<Tree>, nsp: seq<Tree>, dirs: seq<bool>, val: nat, i: nat, levels: nat, s: Slot)
    requires Grown(m0, u0, m1, u1, f1) && Grown(m1, u1, m2, u2, {s})
    requires Seeks(sp, dirs, val) && Stored(m0, sp[0]) && Sound(sp[0]) && Slots(sp[0]) <= u0
    requires 0 < i <= |dirs| && Copied(m1, u1, sp, nsp, dirs, val, i, f1, levels)
    requires s.InteriorSlot? && s in m2 && sp[i - 1].Branch?
    requires m2[s] == InteriorNode(if dirs[i - 1] then nsp[0].slot else sp[i - 1].left.slot,
                                   if dirs[i - 1] then sp[i - 1].right.slot else nsp[0].slot,
                                   sp[i - 1].count + 1, sp[i - 1].key)
    ensures var nt := WithChild(sp[i - 1], dirs[i - 1], s, nsp[0], sp[i - 1].count + 1);
      Copied(m2, u2, sp, [nt] + nsp, dirs, val, i - 1, f1 + {s}, levels)
  {
    hide Stands, Elems, Ascending, Ins, Slots, SameSides;
    var t, left := sp[i - 1], dirs[i - 1];
    var nt := WithChild(t, left, s, nsp[0], t.count + 1);
    OnPath(m0, sp, dirs, i - 1);
    assert sp[i] == Child(t, left) && (left <==> val < t.key);
    CopyStep(m0, u0, m1, u1, f1, m2, u2, t, left, nsp[0], s, val, SpineSlots(sp, i), |dirs| - i + levels);
    WalkCons(nt, left, nsp, dirs[i..]);
    SidesCons(sp, nt, nsp, dirs, i);
    assert dirs[i - 1..] == [left] + dirs[i..];
  }

  /** Copy the recorded path bottom-up, re-linking the new child into each copy. */
  method CopyPath(a: Arena, path: seq<Slot>, wentLeft: seq<bool>, val: nat, child: Slot, record: bool,
                  ghost sp: seq<Tree>, ghost ct: Tree, ghost levels: nat,
                  ghost m0: Mem, ghost u0: set<Slot>, ghost f0: set<Slot>)
    returns (r: Option<Slot>, newPath: seq<Slot>, ghost nsp: seq<Tree>, ghost added: set<Slot>)
    requires a.Valid() && Grown(m0, u0, a.mem, a.inUse, f0)
    requires Seeks(sp, wentLeft, val) && Stored(m0, sp[0]) && Sound(sp[0]) && Slots(sp[0]) <= u0
    requires |path| == |wentLeft| && forall i :: 0 <= i < |path| ==> path[i] == sp[i].slot
    requires Copied(a.mem, a.inUse, sp, [ct], wentLeft, val, |path|, f0, levels) && ct.slot == child
    modifies a
    ensures a.Valid() && a.SameGuard() && Grown(m0, u0, a.mem, a.inUse, added)
    ensures r.None? ==> a.Exhausted() && !Room(old(a.Supply()), 0, |path|)
    ensures r.Some? ==> Paid(old(a.Supply()), a.Supply(), 0, |path|)
    ensures r.Some? ==> Copied(a.mem, a.inUse, sp, nsp, wentLeft, val, 0, added, levels)
    ensures r.Some? ==> nsp[0].slot == r.value && nsp[|path|] == ct
    ensures r.Some? && record ==> |newPath| == |path| && forall i :: 0 <= i < |path| ==> newPath[i] == nsp[i].slot
  {
    hide Copied, Grown, Stored, Slots, Sound, ValidSlots, ValidQueues, ValidCursors, Arena.Exhausted, QueueBag, Room, Paid, InteriorTaken, Arena.Supply;
    var newChild := child;
    PaidNothing(a.Supply());
    newPath, nsp, added := [], [ct], f0;
    var i := |path|;
    CopiedShape(a.mem, a.inUse, sp, nsp, wentLeft, val, i, added, levels);
    while i > 0
      invariant 0 <= i <= |path|
      invariant a.Valid() && a.SameGuard() && Grown(m0, u0, a.mem, a.inUse, added)
      invariant Copied(a.mem, a.inUse, sp, nsp, wentLeft, val, i, added, levels)
      invariant Paid(old(a.Supply()), a.Supply(), 0, |path| - i)
      invariant |nsp| == |path| - i + 1 && nsp[0].slot == newChild && nsp[|path| - i] == ct
      invariant record ==> |newPath| == |path| - i && forall j :: 0 <= j < |newPath| ==> newPath[j] == nsp[j].slot
    {
      i := i - 1;
      OldNode(m0, u0, a.mem, a.inUse, added, sp, wentLeft, i);
      var node := a.mem[path[i]];
      ghost var m1, u1, f1, s1 := a.mem, a.inUse, added, a.Supply();
      var slot, f := PutInterior(a, if wentLeft[i] then newChild else node.left,
                                 if wentLeft[i] then node.right else newChild, node.count + 1, node.key);
      GrownTrans(m0, u0, m1, u1, added, a.mem, a.inUse, f);
      CopyTook(old(a.Supply()), s1, a.Supply(), slot.Some?, |path| - i - 1, |path|);
      added := added + f;
      if slot.None? {
        return None, newPath, nsp, added;
      }
      CopiedStep(m0, u0, m1, u1, f1, a.mem, a.inUse, sp, nsp, wentLeft, val, i + 1, levels, slot.value);
      nsp := [WithChild(sp[i], wentLeft[i], slot.value, nsp[0], sp[i].count + 1)] + nsp;
      newChild := slot.value;
      if record {
        newPath := [newChild] + newPath;
      }
    }
    r := Some(newChild);
  }

  /** One more interior of `n`. */
  lemma CopyTook(s: Stock, s1: Stock, s2: Stock, taken: bool, i: nat, n: nat)
    requires Paid(s, s1, 0, i) && InteriorTaken(s1, s2, taken) && i < n
    ensures if taken then Paid(s, s2, 0, i + 1) else !Room(s, 0, n)
  {
    hide Room, Paid, InteriorTaken;
    PaidInterior(s1, s2, taken);
    PaidThen(s, s1, s2, 0, i, 0, 1);
    if !taken {
      NoRoomAfter(s, s1, 0, i, 0, 1);
      NoRoomFor(s, 0, i + 1, 0, n);
    }
  }

  lemma CopiedShape(m: Mem, u: set<Slot>, sp: seq<Tree>, nsp: seq<Tree>, dirs: seq<bool>, val: nat,
                    i: nat, added: set<Slot>, levels: nat)
    requires Copied(m, u, sp, nsp, dirs, val, i, added, levels)
    ensures |nsp| == |dirs| - i + 1
  {
  }

  /** The old interiors of the path still read as they did. */
  lemma OldNode(m0: Mem, u0: set<Slot>, m: Mem, u: set<Slot>, added: set<Slot>, sp: seq<Tree>, dirs: seq<bool>, i: nat)
    requires Grown(m0, u0, m, u, added) && Walk(sp, dirs) && i < |dirs|
    requires Stored(m0, sp[0]) && Sound(sp[0]) && Slots(sp[0]) <= u0
    ensures sp[i].Branch? && sp[i].slot in m
    ensures m[sp[i].slot] == InteriorNode(sp[i].left.slot, sp[i].right.slot, sp[i].count, sp[i].key)
  {
    OnPath(m0, sp, dirs, i);
    GrownStored(m0, u0, m, u, added, sp[i]);
  }

  // -- The rebalance --------------------------------------------------------------

  /** Element count under a node, as the node records it. */
  function SubtreeSize(m: Mem, s: Slot): nat
    requires s in m && !m[s].FreeLink?
  {
    match m[s]
    case ChunkNode(c) => c.count
    case InteriorNode(_, _, count, _) => count
  }

  /** The highest weight-unbalanced node of the path, or the root when there is none. */
  method FindScapegoat(m: Mem, newPath: seq<Slot>, ghost nsp: seq<Tree>, ghost dirs: seq<bool>)
    returns (at: nat, found: bool)
    requires Walk(nsp, dirs) && Stored(m, nsp[0]) && Sound(nsp[0]) && |newPath| == |dirs|
    requires forall i :: 0 <= i < |newPath| ==> newPath[i] == nsp[i].slot
    ensures at <= |newPath| && (|newPath| > 0 ==> at < |newPath|)
    ensures forall i :: 0 <= i < at ==> !Unbalanced(nsp[i])
    ensures found <==> exists i :: 0 <= i < |newPath| && Unbalanced(nsp[i])
    ensures found ==> at < |newPath| && Unbalanced(nsp[at])
    ensures !found ==> at == 0
  {
    for i := 0 to |newPath|
      invariant forall j :: 0 <= j < i ==> !Unbalanced(nsp[j])
    {
      OnPath(m, nsp, dirs, i);
      assert nsp[i].Branch?;
      var node := m[newPath[i]];
      var left, right := SubtreeSize(m, node.left), SubtreeSize(m, node.right);
      if 3 * left > 2 * node.count || 3 * right > 2 * node.count {
        return i, true;
      }
    }
    return 0, false;
  }

  /** `rc` took the place of `nsp[i]`: position `at` rebuilt, the ancestors from `i` re-copied. */
  ghost predicate Recopied(m: Mem, u: set<Slot>, sp: seq<Tree>, nsp: seq<Tree>, i: nat, at: nat,
                           rc: Tree, added: set<Slot>, height: nat)
  {
    && i <= at < |nsp| == |sp|
    && Stored(m, rc) && Sound(rc) && Slots(rc) <= u
    && Elems(rc) == Elems(nsp[i])
    && Replaces(nsp[i], rc, SpineBetween(nsp, i, at) + Slots(nsp[at]), added)
    && Height(rc) <= Max(Height(sp[i]), at - i + height)
    && LeftSteps(rc) <= Max(LeftSteps(sp[i]), at - i + height)
  }

  lemma RecopiedStep(m0: Mem, u0: set<Slot>, m1: Mem, u1: set<Slot>, f1: set<Slot>, m2: Mem, u2: set<Slot>,
                     sp: seq<Tree>, nsp: seq<Tree>, dirs: seq<bool>, i: nat, at: nat, rc: Tree, height: nat, s: Slot)
    requires Grown(m0, u0, m1, u1, f1) && Grown(m1, u1, m2, u2, {s})
    requires Walk(sp, dirs) && Walk(nsp, dirs) && SameSides(sp, nsp, dirs, 0)
    requires Stored(m0, nsp[0]) && Sound(nsp[0]) && Slots(nsp[0]) <= u0
    requires 0 < i && Recopied(m1, u1, sp, nsp, i, at, rc, f1, height)
    requires s.InteriorSlot? && s in m2 && nsp[i - 1].Branch?
    requires m2[s] == InteriorNode(if dirs[i - 1] then rc.slot else nsp[i - 1].left.slot,
                                   if dirs[i - 1] then nsp[i - 1].right.slot else rc.slot,
                                   nsp[i - 1].count, nsp[i - 1].key)
    ensures var nt := WithChild(nsp[i - 1], dirs[i - 1], s, rc, nsp[i - 1].count);
      Recopied(m2, u2, sp, nsp, i - 1, at, nt, f1 + {s}, height)
  {
    hide Elems, Ascending, Slots, Ordered, Apart;
    var t, left := nsp[i - 1], dirs[i - 1];
    OnPath(m0, nsp, dirs, i - 1);
    assert nsp[i] == Child(t, left) && sp[i] == Child(sp[i - 1], left);
    assert Sibling(t, left) == Sibling(sp[i - 1], left) by {
      assert sp[i - 1].Branch? && nsp[i - 1 - 0].Branch?;
    }
    assert Stored(m2, Sibling(t, left)) && Stored(m2, rc) by {
      SiblingSlots(t, left);
      GrownTrans(m0, u0, m1, u1, f1, m2, u2, {s});
      GrownStored(m0, u0, m2, u2, f1 + {s}, Sibling(t, left));
      GrownStored(m1, u1, m2, u2, {s}, rc);
    }
    RecopyOrdered(t, left, s, rc);
    ReplaceSlots(t, left, s, rc, t.count, SpineBetween(nsp, i, at) + Slots(nsp[at]), f1);
    assert SpineBetween(nsp, i - 1, at) == {t.slot} + SpineBetween(nsp, i, at);
    assert {t.slot} + (SpineBetween(nsp, i, at) + Slots(nsp[at])) == SpineBetween(nsp, i - 1, at) + Slots(nsp[at]);
  }

  lemma SiblingSlots(t: Tree, left: bool)
    requires t.Branch?
    ensures Slots(Sibling(t, left)) <= Slots(t) && Slots(Child(t, left)) <= Slots(t)
  {
  }

  /** Link the rebuilt subtree into copies of the ancestors above it. */
  method RecopyAncestors(a: Arena, newPath: seq<Slot>, wentLeft: seq<bool>, at: nat, child: Slot,
                         ghost sp: seq<Tree>, ghost nsp: seq<Tree>, ghost built: Tree, ghost height: nat,
                         ghost m0: Mem, ghost u0: set<Slot>, ghost f0: set<Slot>)
    returns (r: Option<Slot>, ghost rt: Tree, ghost added: set<Slot>)
    requires a.Valid() && Grown(m0, u0, a.mem, a.inUse, f0)
    requires Walk(sp, wentLeft) && Walk(nsp, wentLeft) && SameSides(sp, nsp, wentLeft, 0)
    requires Stored(m0, nsp[0]) && Sound(nsp[0]) && Slots(nsp[0]) <= u0
    requires |newPath| == |wentLeft| && forall i :: 0 <= i < |newPath| ==> newPath[i] == nsp[i].slot
    requires at <= |newPath| && Recopied(a.mem, a.inUse, sp, nsp, at, at, built, f0, height) && built.slot == child
    modifies a
    ensures a.Valid() && a.SameGuard() && Grown(m0, u0, a.mem, a.inUse, added)
    ensures r.None? ==> a.Exhausted() && !Room(old(a.Supply()), 0, at)
    ensures r.Some? ==> Paid(old(a.Supply()), a.Supply(), 0, at)
    ensures r.Some? ==> Recopied(a.mem, a.inUse, sp, nsp, 0, at, rt, added, height) && rt.slot == r.value
  {
    hide Recopied, Grown, Stored, Slots, Sound, SameSides, ValidSlots, ValidQueues, ValidCursors, Arena.Exhausted, QueueBag;
    hide Room, Paid, InteriorTaken, Arena.Supply;
    var newChild := child;
    PaidNothing(a.Supply());
    rt, added := built, f0;
    var i := at;
    while i > 0
      invariant 0 <= i <= at
      invariant a.Valid() && a.SameGuard() && Grown(m0, u0, a.mem, a.inUse, added)
      invariant Paid(old(a.Supply()), a.Supply(), 0, at - i)
      invariant Recopied(a.mem, a.inUse, sp, nsp, i, at, rt, added, height) && rt.slot == newChild
    {
      i := i - 1;
      OldNode(m0, u0, a.mem, a.inUse, added, nsp, wentLeft, i);
      var node := a.mem[newPath[i]];
      ghost var m1, u1, f1, s1 := a.mem, a.inUse, added, a.Supply();
      var slot, f := PutInterior(a, if wentLeft[i] then newChild else node.left,
                                 if wentLeft[i] then node.right else newChild, node.count, node.key);
      GrownTrans(m0, u0, m1, u1, added, a.mem, a.inUse, f);
      CopyTook(old(a.Supply()), s1, a.Supply(), slot.Some?, at - i - 1, at);
      added := added + f;
      if slot.None? {
        return None, rt, added;
      }
      RecopiedStep(m0, u0, m1, u1, f1, a.mem, a.inUse, sp, nsp, wentLeft, i + 1, at, rt, height, slot.value);
      rt := WithChild(nsp[i], wentLeft[i], slot.value, rt, nsp[i].count);
      newChild := slot.value;
    }
    r := Some(newChild);
  }

  /** Log the first copies of the ancestors above position `at`. */
  method LogAncestors(log: RetireLog, newPath: seq<Slot>, at: nat, ghost nsp: seq<Tree>, ghost dirs: seq<bool>)
    requires at <= |newPath| == |dirs| && Walk(nsp, dirs) && Apart(nsp[0])
    requires forall i :: 0 <= i < |newPath| ==> newPath[i] == nsp[i].slot
    modifies log
    ensures log.Contents() == old(log.Contents()) + multiset(SpineBetween(nsp, 0, at))
    ensures old(log.chunks) <= log.chunks && old(log.interiors) <= log.interiors
    ensures (forall i :: 0 <= i < at ==> newPath[i].InteriorSlot?) ==>
      log.chunks == old(log.chunks) && |log.interiors| == |old(log.interiors)| + at
  {
    hide Slots, Apart, Bag;
    assert |nsp| == |dirs| + 1;
    for j := 0 to at
      invariant log.Contents() + multiset(SpineBetween(nsp, j, at)) == old(log.Contents()) + multiset(SpineBetween(nsp, 0, at))
      invariant old(log.chunks) <= log.chunks && old(log.interiors) <= log.interiors
      invariant (forall i :: 0 <= i < at ==> newPath[i].InteriorSlot?) ==>
        log.chunks == old(log.chunks) && |log.interiors| == |old(log.interiors)| + j
    {
      AncestorsApart(nsp, dirs, 0, j);
      AncestorsApart(nsp, dirs, j, at);
      assert multiset(SpineBetween(nsp, j, at)) == multiset{nsp[j].slot} + multiset(SpineBetween(nsp, j + 1, at));
      LogSlot(log, newPath[j]);
    }
  }

  /** Log the subtree that was rebuilt and the first copies above it. */
  method LogReplaced(m: Mem, target: Slot, log: RetireLog, newPath: seq<Slot>, at: nat, ghost nsp: seq<Tree>, ghost dirs: seq<bool>)
    returns (ghost gone: set<Slot>)
    requires at <= |newPath| == |dirs| && Walk(nsp, dirs) && Sound(nsp[0])
    requires Stored(m, nsp[at]) && Apart(nsp[at]) && nsp[at].slot == target && LeftSteps(nsp[at]) <= MAX_DEPTH
    requires forall i :: 0 <= i < |newPath| ==> newPath[i] == nsp[i].slot
    modifies log
    ensures gone == SpineBetween(nsp, 0, at) + Slots(nsp[at]) && log.Contents() == old(log.Contents()) + multiset(gone)
    ensures old(log.chunks) <= log.chunks && old(log.interiors) <= log.interiors
  {
    hide Slots, Apart, Ordered, Stored, Bag, Elems;
    var _, _ := RetireSubtree(m, target, log, nsp[at]);
    LogAncestors(log, newPath, at, nsp, dirs);
    AncestorsApart(nsp, dirs, 0, at);
    gone := SpineBetween(nsp, 0, at) + Slots(nsp[at]);
    assert multiset(gone) == multiset(Slots(nsp[at])) + multiset(SpineBetween(nsp, 0, at));
  }

  /** Slots of a rebuild of `n` elements below `at` ancestors, which are copied once more. */
  ghost predicate RebuildTook(s: Stock, s': Stock, n: nat, at: nat, done: bool) {
    && n > 0
    && (if done then Paid(s, s', Leaves(n), Leaves(n) - 1 + at) else !Room(s, Leaves(n), Leaves(n) - 1 + at))
    && NoChunkTook(s, s', done)
  }

  lemma RebuildStart(s: Stock, s': Stock, n: nat, at: nat, built: bool)
    requires BuildTook(s, s', n, built)
    ensures if built then TreeTook(s, s', Leaves(n), true) && NoChunkTook(s, s', true) && n > 0 else RebuildTook(s, s', n, at, false)
  {
    hide Leaves, Room, Paid;
    if !built {
      NoRoomFor(s, Leaves(n), Leaves(n) - 1, Leaves(n), Leaves(n) - 1 + at);
    }
  }

  lemma RebuildEnd(s: Stock, s1: Stock, s2: Stock, n: nat, at: nat, done: bool)
    requires n > 0 && TreeTook(s, s1, Leaves(n), true) && NoChunkTook(s, s1, true) && Leaner(s1, s2, 0)
    requires if done then Paid(s1, s2, 0, at) else !Room(s1, 0, at)
    ensures RebuildTook(s, s2, n, at, done)
  {
    hide Leaves, Room, Paid;
    PaidThen(s, s1, s2, Leaves(n), Leaves(n) - 1, 0, at);
    if !done {
      NoRoomAfter(s, s1, Leaves(n), Leaves(n) - 1, 0, at);
    }
  }

  lemma RebuiltAt(m: Mem, u: set<Slot>, sp: seq<Tree>, nsp: seq<Tree>, at: nat, built: Tree)
    requires at < |nsp| == |sp| && Built(m, built, Elems(nsp[at])) && Slots(built) <= u && Ordered(nsp[at])
    ensures Recopied(m, u, sp, nsp, at, at, built, Slots(built), Height(built))
    ensures BuiltHeight(Height(built), Size(nsp[at]))
  {
    OrderedElems(nsp[at]);
    LeftWithinHeight(built);
  }

  /**
   * Rebuild the highest unbalanced node of the freshly copied path and re-link it. On success the
   * replaced subtree and the first copies above it are logged; on failure nothing is.
   */
  method Rebalance(a: Arena, newRoot: Slot, newPath: seq<Slot>, wentLeft: seq<bool>, log: RetireLog,
                   ghost sp: seq<Tree>, ghost nsp: seq<Tree>, ghost levels: nat)
    returns (r: Option<Slot>, overran: bool, found: bool, ghost at: nat, ghost rt: Tree, ghost gone: set<Slot>, ghost added: set<Slot>)
    requires Walk(sp, wentLeft) && Walk(nsp, wentLeft) && SameSides(sp, nsp, wentLeft, 0)
    requires a.Valid() && Stored(a.mem, nsp[0]) && Sound(nsp[0]) && Slots(nsp[0]) <= a.inUse
    requires |newPath| == |wentLeft| && nsp[0].slot == newRoot
    requires forall i :: 0 <= i < |newPath| ==> newPath[i] == nsp[i].slot
    requires Stump(nsp[|newPath|], levels)
    modifies a, log
    ensures a.Valid() && a.SameGuard() && Grown(old(a.mem), old(a.inUse), a.mem, a.inUse, added)
    ensures |newPath| + levels > DepthLimit(Size(nsp[0])) ==> found
    ensures at <= |newPath| && (forall i :: 0 <= i < at ==> !Unbalanced(nsp[i]))
    ensures found ==> at < |newPath| && Unbalanced(nsp[at])
    ensures overran <==> LeftSteps(nsp[at]) > MAX_DEPTH
    ensures overran ==> r.None? && a.Supply() == old(a.Supply()) && added == {}
    ensures !overran ==> RebuildTook(old(a.Supply()), a.Supply(), Size(nsp[at]), at, r.Some?)
    ensures found <==> exists i :: 0 <= i < |newPath| && Unbalanced(nsp[i])
    ensures r.None? ==> unchanged(log) && (!overran ==> a.Exhausted())
    ensures r.Some? ==>
      && Stored(a.mem, rt) && Sound(rt) && rt.slot == r.value && Elems(rt) == Elems(nsp[0])
      && Replaces(nsp[0], rt, gone, added)
      && log.Contents() == old(log.Contents()) + multiset(gone)
      && old(log.chunks) <= log.chunks && old(log.interiors) <= log.interiors
      && Height(rt) <= Max(Height(sp[0]), DepthLimit(Size(nsp[0])))
      && LeftSteps(rt) <= Max(LeftSteps(sp[0]), DepthLimit(Size(nsp[0])))
  {
    hide Recopied, Grown, Built, Stored, Slots, SameSides, Bag, Elems, Height, Ordered, Apart, DepthLimit;
    hide ValidSlots, ValidQueues, ValidCursors, Arena.Exhausted, QueueBag, BuiltHeight, Stump, LeftSteps, Shaped, Bumped, BuildBytes, Arena.Supply;
    hide Room, Paid, BuildTook, RebuildTook;
    ghost var m0, u0, s0 := a.mem, a.inUse, a.Supply();
    gone := {};
    var pos, has := FindScapegoat(a.mem, newPath, nsp, wentLeft);
    at, found := pos, has;
    ScapegoatFound(m0, nsp, wentLeft, levels);
    OnPath(m0, nsp, wentLeft, at);
    ghost var target := nsp[at];
    var targetSlot := if newPath == [] then newRoot else newPath[pos];
    var ok, scratch, _ := CollectInto(a.mem, targetSlot, [], target);
    overran := !ok;
    if overran {
      NoGrowth(a);
      return None, overran, found, at, target, gone, {};
    }
    OrderedElems(target);
    assert scratch == Elems(target);
    var child, built, f0 := BuildBalanced(a, scratch);
    ghost var s1 := a.Supply();
    RebuildStart(s0, s1, Size(target), at, child.Some?);
    if child.None? {
      return None, overran, found, at, target, gone, f0;
    }
    BuiltWithin(m0, u0, a.mem, a.inUse, f0);
    RebuiltAt(a.mem, a.inUse, sp, nsp, at, built);
    RebuildFits(nsp, wentLeft, at, Height(built));
    r, rt, added := RecopyAncestors(a, newPath, wentLeft, pos, child.value, sp, nsp, built, Height(built), m0, u0, f0);
    RebuildEnd(s0, s1, a.Supply(), Size(target), at, r.Some?);
    if r.None? {
      return;
    }
    GrownStored(m0, u0, a.mem, a.inUse, added, target);
    gone := LogReplaced(a.mem, targetSlot, log, newPath, pos, nsp, wentLeft);
    RecopiedRoot(a.mem, a.inUse, sp, nsp, at, rt, added, Height(built));
  }

  /** A path past the limit has a scapegoat: the rebuild never falls back to the root. */
  lemma ScapegoatFound(m: Mem, nsp: seq<Tree>, dirs: seq<bool>, levels: nat)
    requires Walk(nsp, dirs) && Stored(m, nsp[0]) && Sound(nsp[0]) && Stump(nsp[|dirs|], levels)
    ensures |dirs| + levels > DepthLimit(Size(nsp[0])) ==> exists i :: 0 <= i < |dirs| && Unbalanced(nsp[i])
  {
    hide DepthLimit, Unbalanced, Height;
    OnPath(m, nsp, dirs, |dirs|);
    if |dirs| + levels > DepthLimit(Size(nsp[0])) {
      OverdeepHasScapegoat(nsp, dirs);
    }
  }

  lemma BuiltWithin(m0: Mem, u0: set<Slot>, m: Mem, u: set<Slot>, added: set<Slot>)
    requires Grown(m0, u0, m, u, added)
    ensures added <= u
  {
  }

  lemma RecopiedRoot(m: Mem, u: set<Slot>, sp: seq<Tree>, nsp: seq<Tree>, at: nat, rt: Tree, added: set<Slot>, height: nat)
    requires Recopied(m, u, sp, nsp, 0, at, rt, added, height)
    requires at + height <= DepthLimit(Size(nsp[0]))
    ensures Stored(m, rt) && Sound(rt) && Elems(rt) == Elems(nsp[0])
    ensures Replaces(nsp[0], rt, SpineBetween(nsp, 0, at) + Slots(nsp[at]), added)
    ensures Height(rt) <= Max(Height(sp[0]), DepthLimit(Size(nsp[0])))
    ensures LeftSteps(rt) <= Max(LeftSteps(sp[0]), DepthLimit(Size(nsp[0])))
  {
  }

  // -- The insertion ----------------------------------------------------------------

  ghost function RElems(t: Option<Tree>): seq<nat> {
    if t.None? then [] else Elems(t.value)
  }

  ghost function RSlots(t: Option<Tree>): set<Slot> {
    if t.None? then {} else Slots(t.value)
  }

  ghost function RHeight(t: Option<Tree>): nat {
    if t.None? then 0 else Height(t.value)
  }

  /** The root slot denotes `t` in this memory. */
  ghost predicate RootAt(m: Mem, root: Option<Slot>, t: Option<Tree>) {
    && (root.None? <==> t.None?)
    && (t.Some? ==> Stored(m, t.value) && Sound(t.value) && t.value.slot == root.value)
  }

  /**
   * Every slot of the old version and every slot added is in exactly one of the new version, the
   * superseded slots, and the leaked ones; only slots added by the operation can leak.
   */
  ghost predicate Accounted(before: set<Slot>, added: set<Slot>, after: set<Slot>, gone: set<Slot>, leaked: set<Slot>) {
    && before !! added
    && after !! gone && after !! leaked && gone !! leaked
    && before + added == after + gone + leaked
    && leaked <= added
  }

  /** `t'` is the tree with `val` inserted, and the slots add up. */
  ghost predicate InsertDone(m: Mem, t: Option<Tree>, t': Tree, val: nat,
                             gone: set<Slot>, added: set<Slot>, leaked: set<Slot>)
  {
    && Stored(m, t') && Sound(t')
    && Ascending(RElems(t)) && val !in RElems(t)
    && Elems(t') == Ins(RElems(t), val)
    && Accounted(RSlots(t), added, Slots(t'), gone, leaked)
  }

  lemma CopyAccounted(t: Tree, nt: Tree, gone: set<Slot>, f1: set<Slot>, f2: set<Slot>)
    requires Replaces(t, nt, gone, f1) && f1 !! Slots(t) && f2 !! Slots(t) + f1
    ensures Accounted(Slots(t), f1 + f2, Slots(nt), gone, f2)
  {
  }

  lemma RebuildAccounted(t: Tree, nt: Tree, rt: Tree, g1: set<Slot>, f1: set<Slot>, g2: set<Slot>, f2: set<Slot>)
    requires Replaces(t, nt, g1, f1) && Replaces(nt, rt, g2, f2)
    requires f1 !! Slots(t) && f2 !! Slots(t) + f1
    ensures g1 !! g2 && multiset(g1 + g2) == multiset(g1) + multiset(g2)
    ensures Accounted(Slots(t), f1 + f2, Slots(rt), g1 + g2, {})
  {
  }

  /** How tall the new tree may be: a rebuild that had room keeps the scapegoat bound. */
  ghost predicate HeightKept(t: Option<Tree>, t': Tree, failed: bool) {
    && (!failed && RHeight(t) <= DepthLimit(|RElems(t)|) ==> Height(t') <= DepthLimit(|Elems(t')|))
    && Height(t') <= Max(Max(RHeight(t), MAX_DEPTH + 1), DepthLimit(|Elems(t')|))
  }

  /**
   * Most left turns after an insertion that took `turns` of them. A plain copy has one more there if it split
   * the leaf; a rebuilt tree is bounded by the limit.
   */
  ghost predicate StepsKept(t: Tree, t': Tree, turns: nat, levels: nat, plain: bool) {
    if plain then LeftSteps(t') == if levels == 0 then LeftSteps(t) else Max(LeftSteps(t), turns + 1)
    else LeftSteps(t') <= Max(LeftSteps(t), DepthLimit(Size(t) + 1))
  }

  lemma StumpSteps(ct: Tree, levels: nat)
    requires Stump(ct, levels)
    ensures LeftSteps(ct) == levels
  {
    LeftWithinHeight(ct);
    if ct.Branch? {
      LeftWithinHeight(ct.left);
      LeftWithinHeight(ct.right);
    }
  }

  /** The copied path has the left turns of the old one, and one more at a split leaf. */
  lemma {:induction false} PathSteps(sp: seq<Tree>, nsp: seq<Tree>, dirs: seq<bool>, levels: nat, i: nat)
    requires Walk(sp, dirs) && Walk(nsp, dirs) && SameSides(sp, nsp, dirs, 0) && i <= |dirs|
    requires sp[|dirs|].Leaf? && LeftSteps(nsp[|dirs|]) == levels <= 1
    ensures LeftSteps(nsp[i]) ==
      if levels == 0 then LeftSteps(sp[i]) else Max(LeftSteps(sp[i]), LeftTurns(dirs[i..]) + 1)
    decreases |dirs| - i
  {
    if i < |dirs| {
      PathSteps(sp, nsp, dirs, levels, i + 1);
      assert dirs[i..][1..] == dirs[i + 1..];
      var t, nt := sp[i], nsp[i];
      assert t.Branch? && nsp[i - 0].Branch? && Sibling(nt, dirs[i]) == Sibling(t, dirs[i]);
      assert sp[i + 1] == Child(t, dirs[i]) && nsp[i + 1] == Child(nt, dirs[i]);
      hide LeftSteps, SameSides, Walk;
      TurnSteps(t, nt, dirs[i], levels, LeftTurns(dirs[i + 1..]));
    }
  }

  lemma TurnSteps(t: Tree, nt: Tree, left: bool, levels: nat, turns: nat)
    requires t.Branch? && nt.Branch? && Sibling(nt, left) == Sibling(t, left)
    requires LeftSteps(Child(nt, left)) == if levels == 0 then LeftSteps(Child(t, left)) else Max(LeftSteps(Child(t, left)), turns + 1)
    ensures LeftSteps(nt) == if levels == 0 then LeftSteps(t) else Max(LeftSteps(t), turns + (if left then 1 else 0) + 1)
  {
  }

  lemma CopySteps(sp: seq<Tree>, nsp: seq<Tree>, dirs: seq<bool>, levels: nat, t': Tree, need: bool, failed: bool)
    requires Walk(sp, dirs) && Walk(nsp, dirs) && SameSides(sp, nsp, dirs, 0)
    requires sp[|dirs|].Leaf? && Stump(nsp[|dirs|], levels)
    requires failed ==> need
    requires need <==> |dirs| + levels > DepthLimit(Size(sp[0]) + 1)
    requires if need && !failed then LeftSteps(t') <= Max(LeftSteps(sp[0]), DepthLimit(Size(sp[0]) + 1)) else t' == nsp[0]
    ensures StepsKept(sp[0], t', LeftTurns(dirs), levels, failed || !need)
  {
    hide DepthLimit, SameSides;
    StumpSteps(nsp[|dirs|], levels);
    PathSteps(sp, nsp, dirs, levels, 0);
    assert dirs[0..] == dirs;
    TurnsUpTo(dirs);
  }

  lemma CopyHeight(t: Tree, nt: Tree, depth: nat, levels: nat, failed: bool)
    requires Ordered(t) && Ordered(nt) && Size(nt) == Size(t) + 1
    requires Height(nt) <= Max(Height(t), depth + levels) && depth <= MAX_DEPTH && levels <= 1
    requires failed || depth + levels <= DepthLimit(Size(nt))
    ensures HeightKept(Some(t), nt, failed)
  {
    OrderedElems(t);
    OrderedElems(nt);
    LimitMonotone(Size(t), Size(nt));
  }

  lemma RebuildHeight(t: Tree, nt: Tree, rt: Tree)
    requires Ordered(t) && Ordered(nt) && Ordered(rt) && Size(nt) == Size(t) + 1 && Elems(rt) == Elems(nt)
    requires Height(rt) <= Max(Height(t), DepthLimit(Size(nt)))
    ensures HeightKept(Some(t), rt, false)
  {
    OrderedElems(t);
    OrderedElems(nt);
    OrderedElems(rt);
    LimitMonotone(Size(t), Size(nt));
  }

  /** Everything the copied path establishes about the whole tree. */
  lemma CopiedRoot(m: Mem, u: set<Slot>, sp: seq<Tree>, nsp: seq<Tree>, dirs: seq<bool>, val: nat,
                   added: set<Slot>, levels: nat)
    requires Copied(m, u, sp, nsp, dirs, val, 0, added, levels) && Sound(sp[0])
    ensures Walk(nsp, dirs) && SameSides(sp, nsp, dirs, 0)
    ensures Stored(m, nsp[0]) && Sound(nsp[0]) && Slots(nsp[0]) <= u
    ensures Replaces(sp[0], nsp[0], SpineSlots(sp, 0), added)
    ensures Height(nsp[0]) <= Max(Height(sp[0]), |dirs| + levels)
    ensures Ascending(Elems(sp[0])) && val !in Elems(sp[0]) && Elems(nsp[0]) == Ins(Elems(sp[0]), val)
    ensures Size(nsp[0]) == Size(sp[0]) + 1
  {
    assert dirs[0..] == dirs;
    OrderedElems(sp[0]);
    OrderedElems(nsp[0]);
  }

  /** The first chunk slot logged since `before` is `leaf`. */
  ghost predicate LeafFirst(before: seq<nat>, after: seq<nat>, leaf: Slot) {
    |before| < |after| && before <= after && ChunkSlot(after[|before|]) == leaf
  }

  /** Log the replaced leaf and the copied path. */
  method LogPath(log: RetireLog, path: seq<Slot>, leaf: Slot, ghost sp: seq<Tree>, ghost dirs: seq<bool>)
    requires |path| == |dirs| && Walk(sp, dirs) && Apart(sp[0]) && sp[|path|].slot == leaf && leaf.ChunkSlot?
    requires forall i :: 0 <= i < |path| ==> path[i] == sp[i].slot && path[i].InteriorSlot?
    modifies log
    ensures |log.chunks| == |old(log.chunks)| + 1 && |log.interiors| == |old(log.interiors)| + |path|
    ensures log.Contents() == old(log.Contents()) + multiset(SpineSlots(sp, 0))
    ensures LeafFirst(old(log.chunks), log.chunks, leaf) && old(log.interiors) <= log.interiors
  {
    hide Slots, Apart, Bag;
    LogSlot(log, leaf);
    LogAncestors(log, path, |path|, sp, dirs);
    SpineSplit(sp, 0);
    AncestorsApart(sp, dirs, 0, |path|);
    SlotOfRoot(sp[|path|]);
    assert multiset(SpineSlots(sp, 0)) == multiset(SpineBetween(sp, 0, |path|)) + multiset{leaf};
  }

  lemma SlotOfRoot(t: Tree)
    ensures t.slot in Slots(t)
  {
  }

  /** The copied tree was made and what it supersedes was logged, whether or not the call then panicked. */
  predicate Grew(res: InsertResult) {
    res.Inserted? || res.Overran?
  }

  /** What an insertion promises, whatever its outcome. */
  twostate predicate InsertSpec(a: Arena, log: RetireLog, new res: InsertResult, t: Option<Tree>, val: nat, new t': Tree,
                                new gone: set<Slot>, new added: set<Slot>, new leaked: set<Slot>, failed: bool)
    reads a, log
  {
    && Grown(old(a.mem), old(a.inUse), a.mem, a.inUse, added)
    && (res.Inserted? ==> t'.slot == res.root && !Overruns(t, val))
    && (res.Overran? ==> t.Some? && failed && Overruns(t, val))
    && (!Grew(res) ==> unchanged(log))
    && (Grew(res) ==>
         && InsertDone(a.mem, t, t', val, gone, added, leaked)
         && log.Contents() == old(log.Contents()) + multiset(gone)
         && old(log.chunks) <= log.chunks && old(log.interiors) <= log.interiors
         && (t.Some? ==> |old(log.chunks)| < |log.chunks| && ChunkSlot(log.chunks[|old(log.chunks)|]) in Slots(t.value))
         && (!failed ==> leaked == {})
         && HeightKept(t, t', failed))
    && (res.Inserted? && failed ==> a.Exhausted())
    && (res.ArenaFull? ==> a.Exhausted() || (t.Some? && PathLen(t.value, val) > MAX_DEPTH))
    && (res.Duplicate? ==> val in RElems(t) && added == {})
    && (val in RElems(t) && PathLen(t.value, val) <= MAX_DEPTH ==> res.Duplicate?)
    && (res.Inserted? && t.None? ==> unchanged(log))
    && (Grew(res) && t.Some? ==>
         Outgrowth(t.value, t', val, failed, |log.chunks| - |old(log.chunks)|, |log.interiors| - |old(log.interiors)|))
    && InsertTook(old(a.Supply()), a.Supply(), res, t, val, failed)
  }

  /** The insertion of `val` has to split a leaf. */
  ghost predicate LeafIsFull(t: Option<Tree>, val: nat) {
    t.Some? && EndCount(t.value, val) == CHUNK_CAP
  }

  /** The copied path will be past the limit. */
  ghost predicate Overdeep(t: Option<Tree>, val: nat) {
    t.Some? && PathLen(t.value, val) + LeafLevels(LeafIsFull(t, val)) > DepthLimit(Size(t.value) + 1)
  }

  /** The copied path is the outcome: no rebuild was due, or it found no room. */
  ghost predicate Plain(t: Option<Tree>, val: nat, failed: bool) {
    failed || !Overdeep(t, val)
  }

  /** The shape of the outcome, and what a plain copy logs. */
  ghost predicate Outgrowth(t: Tree, t': Tree, val: nat, failed: bool, chunks: int, interiors: int) {
    && StepsKept(t, t', TurnsTo(t, val), LeafLevels(LeafIsFull(Some(t), val)), Plain(Some(t), val, failed))
    && (Plain(Some(t), val, failed) ==> chunks == 1 && interiors == PathLen(t, val) && GrownLeft(t, t', val))
  }

  /** A new least element goes to the leftmost leaf, which has one element more, or splits in two of eight. */
  ghost predicate GrownLeft(t: Tree, t': Tree, val: nat) {
    Under(val, t) ==>
      && LeftDepth(t') == LeftDepth(t) + LeafLevels(LeftCount(t) == CHUNK_CAP)
      && LeftCount(t') == (if LeftCount(t) == CHUNK_CAP then 8 else LeftCount(t) + 1)
      && RightSize(t') == if LeftDepth(t) > 0 then RightSize(t) else if LeftCount(t) == CHUNK_CAP then 8 else 0
  }

  /** Chunks and interiors of the new leaf or leaves and of the copied path. */
  ghost function InsertCost(t: Option<Tree>, val: nat): (nat, nat) {
    if t.None? then (1, 0)
    else (LeafCost(LeafIsFull(t, val)), LeafLevels(LeafIsFull(t, val)) + PathLen(t.value, val))
  }

  ghost predicate RoomToInsert(s: Stock, t: Option<Tree>, val: nat) {
    var cost := InsertCost(t, val);
    Room(s, cost.0, cost.1)
  }

  /** There is room for the copy and for the rebuild after it. */
  ghost predicate RoomToRebuild(s: Stock, t: Tree, val: nat) {
    var cost, more := InsertCost(Some(t), val), RebuildCost(t, val);
    Room(s, cost.0 + more.0, cost.1 + more.1)
  }

  /**
   * What an insertion takes of the stock: a chunk at least, a second one for a full leaf, and another for
   * a rebuild. An idle stock with room for the copy is what it needs, and one with no chunk to be had gives nothing.
   */
  ghost predicate InsertTook(s: Stock, s': Stock, res: InsertResult, t: Option<Tree>, val: nat, failed: bool) {
    var cost := InsertCost(t, val);
    && (Grew(res) ==> Leaner(s, s', CHUNK_SLOT * cost.0) && (s.idle && s.ample ==> RoomToInsert(s, t, val)))
    && (res.ArenaFull? && (t.Some? ==> PathLen(t.value, val) <= MAX_DEPTH) ==> !RoomToInsert(s, t, val))
    && (s.idle && ChunkBytes(s) < CHUNK_SLOT ==> s' == s)
    && (res.Overran? ==> Paid(s, s', cost.0, cost.1))
    && (res.Inserted? && !Overdeep(t, val) ==> !failed && Paid(s, s', cost.0, cost.1))
    && (res.Inserted? && Overdeep(t, val) ==> RebuildDecided(s, s', t.value, val, failed))
  }

  /**
   * Whether the rebuild of an over-deep copy fails is decided by the stock before the insertion: exactly when
   * there is no room for both. If the copy leaves no chunk, the rebuild takes nothing.
   */
  ghost predicate RebuildDecided(s: Stock, s': Stock, t: Tree, val: nat, failed: bool) {
    var cost, more := InsertCost(Some(t), val), RebuildCost(t, val);
    && (s.idle && s.ample ==> (failed <==> !RoomToRebuild(s, t, val)))
    && (!failed ==> Paid(s, s', cost.0 + more.0, cost.1 + more.1) && Leaner(s, s', CHUNK_SLOT * (cost.0 + 1)))
    && (failed && s.idle && s.ample && ChunkBytes(s) < CHUNK_SLOT * (cost.0 + 1) ==> Paid(s, s', cost.0, cost.1))
  }

  lemma LeafRefused(s: Stock, s': Stock, res: InsertResult, t: Tree, val: nat, failed: bool, outcome: LeafOutcome)
    requires LeafTook(s, s', EndCount(t, val) == CHUNK_CAP, outcome) && !outcome.LeafDone?
    requires res == if outcome.LeafFull? then ArenaFull else Duplicate
    ensures InsertTook(s, s', res, Some(t), val, failed)
  {
    hide Room, ChunkBytes, Overdeep;
    if res.ArenaFull? {
      var full := EndCount(t, val) == CHUNK_CAP;
      NoRoomFor(s, LeafCost(full), LeafLevels(full), LeafCost(full), LeafLevels(full) + PathLen(t, val));
    }
  }

  /** The copy, after the leaf. */
  lemma PathTook(s: Stock, s1: Stock, s2: Stock, res: InsertResult, t: Tree, val: nat, failed: bool)
    requires LeafTook(s, s1, EndCount(t, val) == CHUNK_CAP, LeafDone) && Leaner(s1, s2, 0) && !res.Duplicate?
    requires var cost := RebuildCost(t, val);
      GrowTook(s1, s2, PathLen(t, val), cost.0, cost.1, Grew(res), Overdeep(Some(t), val), failed, res.Overran?)
    requires (failed ==> Overdeep(Some(t), val)) && (res.Overran? ==> failed)
    ensures InsertTook(s, s2, res, Some(t), val, failed)
  {
    var full, n, more := EndCount(t, val) == CHUNK_CAP, PathLen(t, val), RebuildCost(t, val);
    var c, l := LeafCost(full), LeafLevels(full);
    hide Overdeep, PathLen, EndCount, RebuildCost, LeafCost, LeafLevels, Room, Paid;
    assert c > 0 by { assert LeafCost(full) > 0 by { ALeaf(full); } }
    hide LeafIsFull;
    assert InsertCost(Some(t), val) == (c, l + n) by { CostOf(t, val); }
    hide InsertCost;
    PaidThen(s, s1, s2, c, l, 0, n);
    if res.ArenaFull? {
      NoRoomAfter(s, s1, c, l, 0, n);
    } else if res.Inserted? && Overdeep(Some(t), val) {
      OverTook(s, s1, s2, t, val, failed, c, l, n);
    }
  }

  lemma CostOf(t: Tree, val: nat)
    ensures var full := EndCount(t, val) == CHUNK_CAP;
      InsertCost(Some(t), val) == (LeafCost(full), LeafLevels(full) + PathLen(t, val))
  {
  }

  lemma ALeaf(full: bool)
    ensures LeafCost(full) > 0
  {
  }

  lemma LeafBytes(s: Stock, s': Stock, c: nat, i: nat)
    requires Paid(s, s', c, i)
    ensures s.idle && s.ample ==> ChunkBytes(s') + CHUNK_SLOT * c <= ChunkBytes(s)
  {
    PaidBytes(s, s', c, i);
  }

  lemma OverTook(s: Stock, s1: Stock, s2: Stock, t: Tree, val: nat, failed: bool, c: nat, l: nat, n: nat)
    requires InsertCost(Some(t), val) == (c, l + n) && Paid(s, s1, c, l) && Leaner(s, s1, CHUNK_SLOT * c)
    requires var more := RebuildCost(t, val); GrowTook(s1, s2, n, more.0, more.1, true, true, failed, false)
    ensures RebuildDecided(s, s2, t, val, failed)
  {
    var more := RebuildCost(t, val);
    hide RebuildCost, InsertCost, Room, Paid;
    PaidThen(s, s1, s2, c, l, more.0, n + more.1);
    PaidThen(s, s1, s2, c, l, 0, n);
    LeafBytes(s, s1, c, l);
    assert s.idle && s.ample ==> (failed <==> !Room(s, c + more.0, l + (n + more.1))) by {
      if !failed { PaidRoom(s1, s2, more.0, n + more.1); }
    }
  }

  lemma PaidRoom(s: Stock, s': Stock, c: nat, i: nat)
    requires Paid(s, s', c, i)
    ensures s.idle && s.ample ==> Room(s, c, i)
  {
  }

  lemma NotTaken(s: Stock, t: Option<Tree>, val: nat, failed: bool)
    requires t.Some? && PathLen(t.value, val) > MAX_DEPTH
    ensures InsertTook(s, s, ArenaFull, t, val, failed)
  {
    hide Overdeep, Room;
  }

  lemma FirstTook(s: Stock, s': Stock, taken: bool, res: InsertResult, val: nat, failed: bool)
    requires ChunkTaken(s, s', taken) && (res.ArenaFull? || res.Inserted?) && (res.Inserted? <==> taken) && !failed
    ensures InsertTook(s, s', res, None, val, failed)
  {
    PaidChunk(s, s', taken);
  }

  /** The insertion of `val` below leaves the copy of this node unbalanced. */
  ghost predicate Due(t: Tree, val: nat)
    requires t.Branch?
  {
    var left, right := Size(t.left) + (if val < t.key then 1 else 0), Size(t.right) + (if val < t.key then 0 else 1);
    3 * left > 2 * (t.count + 1) || 3 * right > 2 * (t.count + 1)
  }

  /** Most left turns in the copy of the path of `val`. */
  ghost function CopiedSteps(t: Tree, val: nat): nat {
    if EndCount(t, val) == CHUNK_CAP then Max(LeftSteps(t), TurnsTo(t, val) + 1) else LeftSteps(t)
  }

  /** Entries that the rebuild after the insertion of `val` needs to traverse what it replaces. */
  ghost function RebuildSteps(t: Tree, val: nat): nat {
    match t
    case Leaf(_, _) => 0
    case Branch(_, l, r, _, key) =>
      if Due(t, val) then CopiedSteps(t, val) else RebuildSteps(if val < key then l else r, val)
  }

  /** A rebuild is due, and its first traversal needs more entries than there are. */
  ghost predicate Overruns(t: Option<Tree>, val: nat) {
    Overdeep(t, val) && RebuildSteps(t.value, val) > MAX_DEPTH
  }

  /** Chunks and interiors of the rebuild that follows the insertion of `val`, if one does. */
  ghost function RebuildCost(t: Tree, val: nat): (nat, nat) {
    match t
    case Leaf(_, _) => (0, 0)
    case Branch(_, l, r, count, key) =>
      if Due(t, val) then (Leaves(count + 1), Leaves(count + 1) - 1)
      else
        var below := RebuildCost(if val < key then l else r, val);
        (below.0, below.1 + 1)
  }

  /** The rebuild happened, and was paid for, or found no room. */
  ghost predicate RebuildPaid(s: Stock, s': Stock, c: nat, i: nat, failed: bool) {
    && (if failed then !Room(s, c, i) else Paid(s, s', c, i))
    && NoChunkTook(s, s', !failed)
  }

  /** The copies have one element more than the originals, at every node. */
  lemma {:induction false} CopySizes(sp: seq<Tree>, nsp: seq<Tree>, dirs: seq<bool>, i: nat)
    requires Walk(sp, dirs) && Walk(nsp, dirs) && SameSides(sp, nsp, dirs, 0) && i <= |dirs|
    requires Ordered(sp[0]) && Ordered(nsp[0]) && Size(nsp[0]) == Size(sp[0]) + 1
    ensures Ordered(sp[i]) && Ordered(nsp[i]) && Size(nsp[i]) == Size(sp[i]) + 1
  {
    if i > 0 {
      CopySizes(sp, nsp, dirs, i - 1);
      var t, nt := sp[i - 1], nsp[i - 1];
      assert t.Branch? && nsp[i - 1 - 0].Branch? && Sibling(nt, dirs[i - 1]) == Sibling(t, dirs[i - 1]);
      assert sp[i] == Child(t, dirs[i - 1]) && nsp[i] == Child(nt, dirs[i - 1]);
    }
  }

  /** The cost of rebuilding the highest unbalanced copy can be read off the tree before the insertion. */
  lemma {:induction false} CostAt(sp: seq<Tree>, nsp: seq<Tree>, dirs: seq<bool>, val: nat, i: nat, at: nat)
    requires Seeks(sp, dirs, val) && Walk(nsp, dirs) && SameSides(sp, nsp, dirs, 0) && i <= at < |dirs|
    requires Ordered(sp[0]) && Ordered(nsp[0]) && Size(nsp[0]) == Size(sp[0]) + 1
    requires (forall j :: 0 <= j < at ==> !Unbalanced(nsp[j])) && Unbalanced(nsp[at])
    ensures Size(nsp[at]) > 0
    ensures RebuildCost(sp[i], val) == (Leaves(Size(nsp[at])), Leaves(Size(nsp[at])) - 1 + (at - i))
    decreases at - i
  {
    hide Leaves, Ordered;
    CopySizes(sp, nsp, dirs, i);
    CopySizes(sp, nsp, dirs, i + 1);
    var t, nt := sp[i], nsp[i];
    assert t.Branch? && nsp[i - 0].Branch? && Sibling(nt, dirs[i]) == Sibling(t, dirs[i]);
    assert sp[i + 1] == Child(t, dirs[i]) && nsp[i + 1] == Child(nt, dirs[i]);
    if i < at {
      CostAt(sp, nsp, dirs, val, i + 1, at);
    }
  }

  /** What the highest unbalanced copy takes to traverse can be read off the tree before the insertion. */
  lemma {:induction false} StepsAt(sp: seq<Tree>, nsp: seq<Tree>, dirs: seq<bool>, val: nat, levels: nat, i: nat, at: nat)
    requires Seeks(sp, dirs, val) && Walk(nsp, dirs) && SameSides(sp, nsp, dirs, 0) && i <= at < |dirs|
    requires Ordered(sp[0]) && Ordered(nsp[0]) && Size(nsp[0]) == Size(sp[0]) + 1
    requires (forall j :: 0 <= j < at ==> !Unbalanced(nsp[j])) && Unbalanced(nsp[at])
    requires sp[|dirs|].Leaf? && Stump(nsp[|dirs|], levels) && levels == LeafLevels(EndCount(sp[0], val) == CHUNK_CAP)
    ensures RebuildSteps(sp[i], val) == LeftSteps(nsp[at])
    decreases at - i
  {
    hide Ordered, LeftSteps, Stump, TurnsTo, EndCount, LeftTurns;
    CopySizes(sp, nsp, dirs, i);
    CopySizes(sp, nsp, dirs, i + 1);
    var t, nt := sp[i], nsp[i];
    assert t.Branch? && nsp[i - 0].Branch? && Sibling(nt, dirs[i]) == Sibling(t, dirs[i]);
    assert sp[i + 1] == Child(t, dirs[i]) && nsp[i + 1] == Child(nt, dirs[i]);
    if i < at {
      StepsAt(sp, nsp, dirs, val, levels, i + 1, at);
    } else {
      StumpSteps(nsp[|dirs|], levels);
      PathSteps(sp, nsp, dirs, levels, i);
      SeekTurns(sp, dirs, val, i);
      SeekTurns(sp, dirs, val, 0);
      LeafTurns(sp[|dirs|], val);
    }
  }

  lemma {:induction false} RebuildBelow(t: Tree, val: nat)
    ensures RebuildSteps(t, val) <= CopiedSteps(t, val) <= LeftSteps(t) + 1
  {
    TurnsBelow(t, val);
    match t
    case Leaf(_, _) =>
    case Branch(_, l, r, _, key) => RebuildBelow(if val < key then l else r, val);
  }

  lemma LeafTurns(t: Tree, val: nat)
    requires t.Leaf?
    ensures TurnsTo(t, val) == 0
  {
  }

  lemma SeeksWalk(sp: seq<Tree>, dirs: seq<bool>, val: nat)
    requires Seeks(sp, dirs, val)
    ensures Walk(sp, dirs)
  {
  }

  lemma ScapegoatPaid(s: Stock, s': Stock, n: nat, at: nat, done: bool)
    requires RebuildTook(s, s', n, at, done)
    ensures RebuildPaid(s, s', Leaves(n), Leaves(n) - 1 + at, !done)
  {
    hide Leaves, Room, Paid;
  }

  /** The copied path is too deep: rebuild, or keep the copy when the rebuild finds no room. */
  method RebuildOrKeep(a: Arena, newRoot: Slot, newPath: seq<Slot>, wentLeft: seq<bool>, log: RetireLog,
                       ghost sp: seq<Tree>, ghost nsp: seq<Tree>, ghost g1: set<Slot>, ghost f1: set<Slot>, ghost levels: nat,
                       ghost val: nat)
    returns (root: Slot, overran: bool, ghost t': Tree, ghost g2: set<Slot>, ghost f2: set<Slot>, ghost leaked: set<Slot>, ghost failed: bool)
    requires |sp| == |nsp| == |wentLeft| + 1
    requires Seeks(sp, wentLeft, val) && Walk(nsp, wentLeft) && SameSides(sp, nsp, wentLeft, 0)
    requires a.Valid() && Stored(a.mem, nsp[0]) && Sound(nsp[0]) && Slots(nsp[0]) <= a.inUse
    requires |newPath| == |wentLeft| <= MAX_DEPTH && Stump(nsp[|newPath|], levels) && levels <= 1 && nsp[0].slot == newRoot
    requires |newPath| + levels > DepthLimit(Size(nsp[0]))
    requires forall i :: 0 <= i < |newPath| ==> newPath[i] == nsp[i].slot
    requires Sound(sp[0]) && Size(nsp[0]) == Size(sp[0]) + 1
    requires Height(nsp[0]) <= Max(Height(sp[0]), |newPath| + levels)
    requires Replaces(sp[0], nsp[0], g1, f1) && f1 !! Slots(sp[0]) && Slots(sp[0]) + f1 <= a.inUse
    requires sp[|newPath|].Leaf? && levels == LeafLevels(EndCount(sp[0], val) == CHUNK_CAP)
    modifies a, log
    ensures overran <==> RebuildSteps(sp[0], val) > MAX_DEPTH
    ensures overran ==> failed && a.Supply() == old(a.Supply()) && f2 == {}
    ensures a.Valid() && a.SameGuard() && Grown(old(a.mem), old(a.inUse), a.mem, a.inUse, f2)
    ensures Stored(a.mem, t') && Sound(t') && t'.slot == root && Elems(t') == Elems(nsp[0])
    ensures Accounted(Slots(sp[0]), f1 + f2, Slots(t'), g1 + g2, leaked) && (!failed ==> leaked == {})
    ensures multiset(g1 + g2) == multiset(g1) + multiset(g2)
    ensures log.Contents() == old(log.Contents()) + multiset(g2)
    ensures old(log.chunks) <= log.chunks && old(log.interiors) <= log.interiors
    ensures failed ==> t' == nsp[0] && (!overran ==> a.Exhausted())
    ensures !failed ==> LeftSteps(t') <= Max(LeftSteps(sp[0]), DepthLimit(Size(nsp[0])))
    ensures !overran ==> var cost := RebuildCost(sp[0], val);
      RebuildPaid(old(a.Supply()), a.Supply(), cost.0, cost.1, failed)
    ensures failed ==> unchanged(log)
    ensures HeightKept(Some(sp[0]), t', failed)
  {
    hide Grown, Stored, Slots, SameSides, Bag, Elems, Height, Ordered, Apart, DepthLimit, Accounted, HeightKept;
    hide ValidSlots, ValidQueues, ValidCursors, Arena.Exhausted, QueueBag, Replaces, Seeks, Unbalanced;
    hide RebuildTook, RebuildPaid, RebuildCost, RebuildSteps, EndCount, LeftSteps, Arena.Supply, Stump, Walk;
    SeeksWalk(sp, wentLeft, val);
    var r, over, found, at, rt, g, f := Rebalance(a, newRoot, newPath, wentLeft, log, sp, nsp, levels);
    assert found;
    RebuildFacts(sp, nsp, wentLeft, val, levels, at);
    if !over {
      ScapegoatPaid(old(a.Supply()), a.Supply(), Size(nsp[at]), at, r.Some?);
    }
    GrownFresh(old(a.mem), old(a.inUse), a.mem, a.inUse, f, Slots(sp[0]) + f1);
    if r.Some? {
      RebuildAccounted(sp[0], nsp[0], rt, g1, f1, g, f);
      RebuildHeight(sp[0], nsp[0], rt);
      return r.value, over, rt, g, f, {}, false;
    }
    GrownStored(old(a.mem), old(a.inUse), a.mem, a.inUse, f, nsp[0]);
    CopyAccounted(sp[0], nsp[0], g1, f1, f);
    CopyHeight(sp[0], nsp[0], |newPath|, levels, true);
    assert g1 + {} == g1;
    return newRoot, over, nsp[0], {}, f, f, true;
  }

  /** What the rebuild of the highest unbalanced copy costs and takes to traverse. */
  lemma RebuildFacts(sp: seq<Tree>, nsp: seq<Tree>, dirs: seq<bool>, val: nat, levels: nat, at: nat)
    requires Seeks(sp, dirs, val) && Walk(nsp, dirs) && SameSides(sp, nsp, dirs, 0) && at < |dirs|
    requires Sound(sp[0]) && Sound(nsp[0]) && Size(nsp[0]) == Size(sp[0]) + 1
    requires (forall j :: 0 <= j < at ==> !Unbalanced(nsp[j])) && Unbalanced(nsp[at])
    requires sp[|dirs|].Leaf? && Stump(nsp[|dirs|], levels) && levels == LeafLevels(EndCount(sp[0], val) == CHUNK_CAP)
    ensures Size(nsp[at]) > 0 && RebuildCost(sp[0], val) == (Leaves(Size(nsp[at])), Leaves(Size(nsp[at])) - 1 + at)
    ensures RebuildSteps(sp[0], val) == LeftSteps(nsp[at])
  {
    hide Ordered, Apart, Seeks, Walk, SameSides, Unbalanced, Stump, EndCount, RebuildCost, RebuildSteps, LeftSteps, Leaves;
    CostAt(sp, nsp, dirs, val, 0, at);
    StepsAt(sp, nsp, dirs, val, levels, 0, at);
  }

  /** The copied tree is the result: log what it superseded, and rebalance when the path got too deep. */
  method FinishInsert(a: Arena, newRoot: Slot, newPath: seq<Slot>, path: seq<Slot>, leaf: Slot, wentLeft: seq<bool>,
                      need: bool, log: RetireLog, ghost sp: seq<Tree>, ghost nsp: seq<Tree>, ghost val: nat,
                      ghost f1: set<Slot>, ghost levels: nat)
    returns (root: Slot, overran: bool, ghost t': Tree, ghost gone: set<Slot>, ghost f2: set<Slot>, ghost leaked: set<Slot>, ghost failed: bool)
    requires a.Valid() && Copied(a.mem, a.inUse, sp, nsp, wentLeft, val, 0, f1, levels) && nsp[0].slot == newRoot
    requires Seeks(sp, wentLeft, val) && Sound(sp[0]) && f1 !! Slots(sp[0]) && Slots(sp[0]) + f1 <= a.inUse
    requires |path| == |wentLeft| <= MAX_DEPTH && sp[|path|].slot == leaf && leaf.ChunkSlot? && levels <= 1
    requires forall i :: 0 <= i < |path| ==> path[i] == sp[i].slot && path[i].InteriorSlot?
    requires need ==> |newPath| == |path| && forall i :: 0 <= i < |path| ==> newPath[i] == nsp[i].slot
    requires need <==> |path| + levels > DepthLimit(Size(sp[0]) + 1)
    requires |nsp| == |path| + 1 && Stump(nsp[|path|], levels)
    requires sp[|path|].Leaf? && levels == LeafLevels(EndCount(sp[0], val) == CHUNK_CAP)
    modifies a, log
    ensures overran <==> need && RebuildSteps(sp[0], val) > MAX_DEPTH
    ensures overran ==> failed && a.Supply() == old(a.Supply())
    ensures a.Valid() && a.SameGuard() && Grown(old(a.mem), old(a.inUse), a.mem, a.inUse, f2)
    ensures failed ==> need
    ensures if need && !failed then LeftSteps(t') <= Max(LeftSteps(sp[0]), DepthLimit(Size(sp[0]) + 1)) else t' == nsp[0]
    ensures if need && !overran then var cost := RebuildCost(sp[0], val); RebuildPaid(old(a.Supply()), a.Supply(), cost.0, cost.1, failed)
            else a.Supply() == old(a.Supply())
    ensures !need || failed ==> |log.chunks| == |old(log.chunks)| + 1 && |log.interiors| == |old(log.interiors)| + |path|
    ensures Stored(a.mem, t') && Sound(t') && t'.slot == root && Elems(t') == Elems(nsp[0])
    ensures Accounted(Slots(sp[0]), f1 + f2, Slots(t'), gone, leaked) && (!failed ==> leaked == {})
    ensures log.Contents() == old(log.Contents()) + multiset(gone)
    ensures LeafFirst(old(log.chunks), log.chunks, leaf) && old(log.interiors) <= log.interiors
    ensures failed && !overran ==> a.Exhausted()
    ensures HeightKept(Some(sp[0]), t', failed)
  {
    hide Copied, Grown, Stored, Slots, SameSides, Bag, Elems, Height, Ordered, Apart, DepthLimit, Accounted, HeightKept;
    hide ValidSlots, ValidQueues, ValidCursors, Arena.Exhausted, QueueBag, Replaces, SpineSlots, Walk, RebuildPaid, RebuildCost, RebuildSteps, EndCount, Arena.Supply;
    CopiedRoot(a.mem, a.inUse, sp, nsp, wentLeft, val, f1, levels);
    LogPath(log, path, leaf, sp, wentLeft);
    gone := SpineSlots(sp, 0);
    if need {
      var r, over, t2, g2, f, lk, fl := RebuildOrKeep(a, newRoot, newPath, wentLeft, log, sp, nsp, gone, f1, levels, val);
      return r, over, t2, gone + g2, f, lk, fl;
    }
    KeepCopy(a, sp[0], nsp[0], gone, f1, |path|, levels);
    return newRoot, false, nsp[0], gone, {}, {}, false;
  }

  lemma KeepCopy(a: Arena, t: Tree, nt: Tree, gone: set<Slot>, f1: set<Slot>, depth: nat, levels: nat)
    requires Ordered(t) && Ordered(nt) && Size(nt) == Size(t) + 1 && Replaces(t, nt, gone, f1) && f1 !! Slots(t)
    requires Height(nt) <= Max(Height(t), depth + levels) && depth <= MAX_DEPTH && levels <= 1
    requires depth + levels <= DepthLimit(Size(nt))
    ensures Accounted(Slots(t), f1 + {}, Slots(nt), gone, {}) && HeightKept(Some(t), nt, false)
    ensures Grown(a.mem, a.inUse, a.mem, a.inUse, {})
  {
    hide HeightKept, DepthLimit, Height, Ordered;
    CopyAccounted(t, nt, gone, f1, {});
    CopyHeight(t, nt, depth, levels, false);
  }

  lemma NoGrowth(a: Arena)
    ensures Grown(a.mem, a.inUse, a.mem, a.inUse, {})
  {
  }

  lemma GrownFresh(m0: Mem, u0: set<Slot>, m: Mem, u: set<Slot>, added: set<Slot>, s: set<Slot>)
    requires Grown(m0, u0, m, u, added) && s <= u0
    ensures added !! s && s + added <= u
  {
  }

  /** Every turn is to the left. */
  ghost predicate AllLeft(dirs: seq<bool>) {
    forall j :: 0 <= j < |dirs| ==> dirs[j]
  }

  lemma LeftCopy(sp: seq<Tree>, nsp: seq<Tree>, dirs: seq<bool>)
    requires Walk(nsp, dirs) && SameSides(sp, nsp, dirs, 0) && AllLeft(dirs)
    ensures LeftDepth(nsp[0]) == |dirs| + LeftDepth(nsp[|dirs|]) && LeftCount(nsp[0]) == LeftCount(nsp[|dirs|])
    ensures |dirs| > 0 ==> RightSize(nsp[0]) == RightSize(sp[0])
  {
    LeftWalk(nsp, dirs, 0);
    if |dirs| > 0 {
      assert sp[0].Branch? && nsp[0 - 0].Branch? && Sibling(nsp[0], true) == Sibling(sp[0], true);
    }
  }

  /**
   * What copying `n` ancestors, and a rebuild of `c` chunks and `i` interiors if one is due, take of the stock.
   * A rebuild that overran its traversal took nothing.
   */
  ghost predicate GrowTook(s: Stock, s': Stock, n: nat, c: nat, i: nat, done: bool, need: bool, failed: bool, overran: bool) {
    if !done then !Room(s, 0, n)
    else
      && (s.idle && s.ample ==> Room(s, 0, n))
      && (!need || overran ==> Paid(s, s', 0, n))
      && (need && !failed ==> Paid(s, s', c, n + i) && Leaner(s, s', CHUNK_SLOT))
      && (need && failed && !overran ==>
            !Room(s, c, n + i) && (s.idle && s.ample && ChunkBytes(s) < CHUNK_SLOT ==> Paid(s, s', 0, n)))
  }

  lemma CopyRefused(s: Stock, s': Stock, n: nat, c: nat, i: nat, need: bool)
    requires !Room(s, 0, n)
    ensures GrowTook(s, s', n, c, i, false, need, false, false)
  {
  }

  lemma GrowPaid(s0: Stock, s1: Stock, s2: Stock, n: nat, c: nat, i: nat, need: bool, failed: bool, overran: bool)
    requires Paid(s0, s1, 0, n) && Leaner(s0, s1, 0) && (failed ==> need) && (overran ==> failed)
    requires if need && !overran then RebuildPaid(s1, s2, c, i, failed) else s2 == s1
    ensures GrowTook(s0, s2, n, c, i, true, need, failed, overran)
  {
    PaidThen(s0, s1, s2, 0, n, c, i);
    PaidBytes(s0, s1, 0, n);
    if need && failed && !overran {
      NoRoomAfter(s0, s1, 0, n, c, i);
    }
    assert s0.idle && s0.ample ==> Room(s0, 0, n);
    hide Room, Paid;
  }

  /** Copy the path above the new leaf, then finish; a copy that finds no room changes nothing but the arena. */
  method GrowPath(a: Arena, path: seq<Slot>, wentLeft: seq<bool>, val: nat, child: Slot, levels: nat, leaf: Slot,
                  need: bool, log: RetireLog, ghost sp: seq<Tree>, ghost ct: Tree,
                  ghost m0: Mem, ghost u0: set<Slot>, ghost f0: set<Slot>)
    returns (r: Option<Slot>, overran: bool, ghost t': Tree, ghost gone: set<Slot>, ghost added: set<Slot>,
             ghost leaked: set<Slot>, ghost failed: bool)
    requires a.Valid() && Grown(m0, u0, a.mem, a.inUse, f0)
    requires Seeks(sp, wentLeft, val) && Stored(m0, sp[0]) && Sound(sp[0]) && Slots(sp[0]) <= u0
    requires |path| == |wentLeft| <= MAX_DEPTH && sp[|path|].slot == leaf && leaf.ChunkSlot? && levels <= 1
    requires forall i :: 0 <= i < |path| ==> path[i] == sp[i].slot && path[i].InteriorSlot?
    requires Copied(a.mem, a.inUse, sp, [ct], wentLeft, val, |path|, f0, levels) && ct.slot == child
    requires need <==> |path| + levels > DepthLimit(Size(sp[0]) + 1)
    requires Stump(ct, levels) && sp[|path|].Leaf?
    requires levels == LeafLevels(EndCount(sp[0], val) == CHUNK_CAP)
    modifies a, log
    ensures overran <==> r.Some? && need && RebuildSteps(sp[0], val) > MAX_DEPTH
    ensures overran ==> failed
    ensures a.Valid() && a.SameGuard() && Grown(m0, u0, a.mem, a.inUse, added)
    ensures r.None? ==> unchanged(log) && a.Exhausted()
    ensures failed ==> need
    ensures r.Some? ==> StepsKept(sp[0], t', LeftTurns(wentLeft), levels, failed || !need)
    ensures var cost := RebuildCost(sp[0], val); GrowTook(old(a.Supply()), a.Supply(), |path|, cost.0, cost.1, r.Some?, need, failed, overran)
    ensures r.Some? && (!need || failed) ==>
      && |log.chunks| == |old(log.chunks)| + 1 && |log.interiors| == |old(log.interiors)| + |path|
      && (AllLeft(wentLeft) ==>
           && LeftDepth(t') == |path| + LeftDepth(ct) && LeftCount(t') == LeftCount(ct)
           && RightSize(t') == RightSize(if |path| == 0 then ct else sp[0]))
    ensures r.Some? && failed && !overran ==> a.Exhausted()
    ensures r.Some? ==>
      && t'.slot == r.value && InsertDone(a.mem, Some(sp[0]), t', val, gone, added, leaked)
      && log.Contents() == old(log.Contents()) + multiset(gone)
      && LeafFirst(old(log.chunks), log.chunks, leaf) && old(log.interiors) <= log.interiors
      && (!failed ==> leaked == {}) && HeightKept(Some(sp[0]), t', failed)
  {
    hide Copied, Grown, Stored, Slots, SameSides, Bag, Elems, Height, Ordered, Apart, DepthLimit, Accounted, HeightKept;
    hide ValidSlots, ValidQueues, ValidCursors, Arena.Exhausted, QueueBag, Replaces, SpineSlots, RebuildCost, RebuildSteps, EndCount, RebuildPaid, Room, Paid, GrowTook, Arena.Supply, AllLeft;
    overran, t', gone, leaked, failed := false, sp[0], {}, {}, false;
    ghost var s0, cost := a.Supply(), RebuildCost(sp[0], val);
    var copy, newPath, nsp, f1 := CopyPath(a, path, wentLeft, val, child, need, sp, ct, levels, m0, u0, f0);
    added := f1;
    ghost var s1 := a.Supply();
    if copy.None? {
      CopyRefused(s0, s1, |path|, cost.0, cost.1, need);
      return None, false, t', gone, added, leaked, failed;
    }
    ghost var m1, u1 := a.mem, a.inUse;
    GrownFresh(m0, u0, m1, u1, f1, Slots(sp[0]));
    CopiedRoot(a.mem, a.inUse, sp, nsp, wentLeft, val, f1, levels);
    var newRoot, over, t2, g, f2, lk, fl :=
      FinishInsert(a, copy.value, newPath, path, leaf, wentLeft, need, log, sp, nsp, val, f1, levels);
    GrownTrans(m0, u0, m1, u1, f1, a.mem, a.inUse, f2);
    GrowPaid(s0, s1, a.Supply(), |path|, cost.0, cost.1, need, fl, over);
    if AllLeft(wentLeft) {
      LeftCopy(sp, nsp, wentLeft);
    }
    CopySteps(sp, nsp, wentLeft, levels, t2, need, fl);
    return Some(newRoot), over, t2, g, f1 + f2, lk, fl;
  }

  /** What an insertion that got as far as copying its path answers. */
  function Outcome(r: Option<Slot>, overran: bool): InsertResult {
    if overran then Overran else if r.Some? then Inserted(r.value) else ArenaFull
  }

  /** Decide on a rebuild, and grow the tree from its new leaf. */
  method GrowFrom(a: Arena, path: seq<Slot>, wentLeft: seq<bool>, val: nat, child: Slot, levels: nat, leaf: Slot, chunk: Chunk,
                  total: nat, log: RetireLog, ghost t: Tree, ghost sp: seq<Tree>, ghost ct: Tree,
                  ghost m0: Mem, ghost u0: set<Slot>, ghost f0: set<Slot>, ghost s0: Stock, ghost s1: Stock)
    returns (r: Option<Slot>, overran: bool, ghost t': Tree, ghost gone: set<Slot>, ghost added: set<Slot>,
             ghost leaked: set<Slot>, ghost failed: bool)
    requires a.Valid() && Grown(m0, u0, a.mem, a.inUse, f0) && s1 == a.Supply()
    requires Seeks(sp, wentLeft, val) && sp[0] == t && Stored(m0, t) && Sound(t) && Slots(t) <= u0
    requires |path| == |wentLeft| <= MAX_DEPTH && sp[|path|] == Leaf(leaf, chunk) && leaf.ChunkSlot? && |path| == PathLen(t, val)
    requires forall i :: 0 <= i < |path| ==> path[i] == sp[i].slot && path[i].InteriorSlot?
    requires chunk.Valid() && chunk.count > 0 && val !in chunk.Vals() && total == Size(t) + 1
    requires LeafCopy(a.mem, ct, Ins(chunk.Vals(), val), levels) && ct.slot == child && Slots(ct) == f0 && levels <= 1
    requires Sprouts(ct, chunk, val, levels) && levels == LeafLevels(chunk.count == CHUNK_CAP)
    requires LeafTook(s0, s1, chunk.count == CHUNK_CAP, LeafDone)
    modifies a, log
    ensures overran <==> r.Some? && Overruns(Some(t), val)
    ensures overran ==> failed
    ensures a.Valid() && a.SameGuard() && Grown(m0, u0, a.mem, a.inUse, added)
    ensures r.None? ==> unchanged(log) && a.Exhausted()
    ensures r.Some? && failed && !overran ==> a.Exhausted()
    ensures r.Some? ==>
      && t'.slot == r.value && InsertDone(a.mem, Some(t), t', val, gone, added, leaked)
      && log.Contents() == old(log.Contents()) + multiset(gone)
      && LeafFirst(old(log.chunks), log.chunks, leaf) && old(log.interiors) <= log.interiors
      && (!failed ==> leaked == {}) && HeightKept(Some(t), t', failed)
      && Outgrowth(t, t', val, failed, |log.chunks| - |old(log.chunks)|, |log.interiors| - |old(log.interiors)|)
    ensures InsertTook(s0, a.Supply(), Outcome(r, overran), Some(t), val, failed)
  {
    hide Copied, Grown, Stored, Slots, Bag, Elems, Ordered, Apart, DepthLimit, InsertDone, HeightKept;
    hide ValidSlots, ValidQueues, ValidCursors, Arena.Exhausted, QueueBag, LeafCopy, PathLen, ILog2;
    hide LeafTook, GrowTook, InsertTook, StepsKept, Sprouts, Under, Room, Paid, RebuildCost, RebuildSteps, EndCount, TurnsTo, LeftDepth, LeftCount, RightSize, LeftTurns;
    hide Arena.Supply, AllLeft, Outgrowth, Walk;
    EndFacts(sp, wentLeft, val, leaf, chunk);
    LeftFacts(sp, wentLeft, val, leaf, chunk);
    LeafHolds(m0, sp, wentLeft, leaf, chunk);
    var need := |path| + levels > ILog2(Max(total, 2)) && |path| + levels > DepthLimit(total);
    PrefilterSafe(|path| + levels, total);
    CopiedLeaf(m0, u0, a.mem, a.inUse, sp, wentLeft, val, ct, f0, levels);
    assert need <==> Overdeep(Some(t), val);
    r, overran, t', gone, added, leaked, failed := GrowPath(a, path, wentLeft, val, child, levels, leaf, need, log, sp, ct, m0, u0, f0);
    PathTook(s0, s1, a.Supply(), Outcome(r, overran), t, val, failed);
    if r.Some? {
      ShapeOf(t, t', val, |path|, ct, chunk, levels, AllLeft(wentLeft), LeftTurns(wentLeft), need, failed,
              |log.chunks| - |old(log.chunks)|, |log.interiors| - |old(log.interiors)|);
    }
  }

  lemma LeafHolds(m: Mem, sp: seq<Tree>, dirs: seq<bool>, leaf: Slot, chunk: Chunk)
    requires Walk(sp, dirs) && Stored(m, sp[0]) && Sound(sp[0]) && sp[|dirs|] == Leaf(leaf, chunk)
    ensures Elems(sp[|dirs|]) == chunk.Vals() && Ascending(Elems(sp[|dirs|]))
  {
    OnPath(m, sp, dirs, |dirs|);
  }

  /** Insertion into a non-empty tree. */
  method InsertAt(a: Arena, root: Slot, val: nat, log: RetireLog, ghost t: Tree)
    returns (res: InsertResult, ghost t': Tree, ghost gone: set<Slot>, ghost added: set<Slot>,
             ghost leaked: set<Slot>, ghost failed: bool)
    requires a.Valid() && Stored(a.mem, t) && Sound(t) && t.slot == root && Slots(t) <= a.inUse
    modifies a, log
    ensures a.Valid() && a.SameGuard()
    ensures InsertSpec(a, log, res, Some(t), val, t', gone, added, leaked, failed)
  {
    hide Copied, Grown, Stored, Slots, Bag, Elems, Ordered, Apart, DepthLimit, InsertDone, HeightKept;
    hide ValidSlots, ValidQueues, ValidCursors, Arena.Exhausted, QueueBag, LeafCopy, PathLen, ILog2;
    hide LeafTook, GrowTook, InsertTook, StepsKept, Sprouts, Under, Room, Paid, RebuildCost, RebuildSteps, EndCount, TurnsTo, LeftDepth, LeftCount, RightSize, LeftTurns;
    hide Arena.Supply, Outgrowth, Walk, Seeks;
    ghost var m0, u0 := a.mem, a.inUse;
    t', gone, leaked, failed := t, {}, {}, false;
    var ok, path, wentLeft, leaf, chunk, sp := Descend(a.mem, root, val, t);
    if !ok {
      NoGrowth(a);
      NotTaken(a.Supply(), Some(t), val, failed);
      return ArenaFull, t', gone, {}, leaked, failed;
    }
    LeafFacts(m0, sp, wentLeft, val, leaf, chunk);
    var total := SubtreeSize(a.mem, root) + 1;
    EndFacts(sp, wentLeft, val, leaf, chunk);
    ghost var s0 := a.Supply();
    var outcome, child, levels, ct, f0 := InsertLeaf(a, chunk, val);
    ghost var s1 := a.Supply();
    added := f0;
    match outcome {
      case LeafDuplicate =>
        LeafRefused(s0, s1, Duplicate, t, val, failed, outcome);
        return Duplicate, t', gone, added, leaked, failed;
      case LeafFull =>
        LeafRefused(s0, s1, ArenaFull, t, val, failed, outcome);
        return ArenaFull, t', gone, added, leaked, failed;
      case LeafDone =>
    }
    var r, over, t2, g, f1, lk, fl := GrowFrom(a, path, wentLeft, val, child, levels, leaf, chunk, total, log, t, sp, ct, m0, u0, f0, s0, s1);
    if r.None? {
      return ArenaFull, t', gone, f1, leaked, fl;
    }
    return Outcome(r, over), t2, g, f1, lk, fl;
  }

  /** Insertion into an empty tree: one leaf. */
  method InsertFirst(a: Arena, val: nat, log: RetireLog)
    returns (res: InsertResult, ghost t': Tree, ghost added: set<Slot>)
    requires a.Valid()
    modifies a, log
    ensures a.Valid() && a.SameGuard()
    ensures InsertSpec(a, log, res, None, val, t', {}, added, {}, false)
  {
    hide ValidSlots, ValidQueues, ValidCursors, Arena.Exhausted, QueueBag, HeightKept, DepthLimit, InsertDone, Grown, InsertTook, Bag;
    hide ChunkTaken, StepsKept, Arena.Supply;
    var c := FromSorted([val]);
    ghost var s0 := a.Supply();
    var s;
    s, added := PutChunk(a, c);
    t' := Leaf(if s.Some? then s.value else ChunkSlot(0), c);
    res := if s.Some? then Inserted(s.value) else ArenaFull;
    FirstTook(s0, a.Supply(), s.Some?, res, val, false);
    if s.Some? {
      FirstLeaf(a.mem, s.value, c, val);
    }
  }

  /** Insert `val` into the tree at `root`, which may be empty. */
  method InsertWithScratch(a: Arena, root: Option<Slot>, val: nat, log: RetireLog, ghost t: Option<Tree>)
    returns (res: InsertResult, ghost t': Tree, ghost gone: set<Slot>, ghost added: set<Slot>,
             ghost leaked: set<Slot>, ghost failed: bool)
    requires a.Valid() && RootAt(a.mem, root, t) && RSlots(t) <= a.inUse
    modifies a, log
    ensures a.Valid() && a.SameGuard()
    ensures InsertSpec(a, log, res, t, val, t', gone, added, leaked, failed)
  {
    hide ValidSlots, ValidQueues, ValidCursors, Arena.Exhausted, QueueBag, HeightKept, DepthLimit, InsertSpec;
    gone, leaked, failed := {}, {}, false;
    if root.Some? {
      res, t', gone, added, leaked, failed := InsertAt(a, root.value, val, log, t.value);
    } else {
      res, t', added := InsertFirst(a, val, log);
    }
  }

  lemma FirstLeaf(m: Mem, s: Slot, c: Chunk, val: nat)
    requires s.ChunkSlot? && s in m && m[s] == ChunkNode(c) && c == FromSorted([val])
    ensures InsertDone(m, None, Leaf(s, c), val, {}, {s}, {}) && HeightKept(None, Leaf(s, c), false)
  {
    assert Ins([], val) == [val];
  }

  lemma LeafFacts(m: Mem, sp: seq<Tree>, dirs: seq<bool>, val: nat, leaf: Slot, chunk: Chunk)
    requires Seeks(sp, dirs, val) && Stored(m, sp[0]) && Sound(sp[0]) && sp[|dirs|] == Leaf(leaf, chunk)
    ensures chunk.Valid() && chunk.count > 0 && Elems(sp[|dirs|]) == chunk.Vals()
    ensures val in Elems(sp[0]) <==> val in chunk.Vals()
    ensures sp[0].slot in m && !m[sp[0].slot].FreeLink? && SubtreeSize(m, sp[0].slot) == Size(sp[0])
    ensures leaf.ChunkSlot? && leaf in Slots(sp[0])
  {
    OnPath(m, sp, dirs, |dirs|);
    SeekDecides(sp, dirs, val, |dirs|);
  }

  lemma EndFacts(sp: seq<Tree>, dirs: seq<bool>, val: nat, leaf: Slot, chunk: Chunk)
    requires Seeks(sp, dirs, val) && sp[|dirs|] == Leaf(leaf, chunk)
    ensures TurnsTo(sp[0], val) == LeftTurns(dirs) && EndCount(sp[0], val) == chunk.count
  {
    SeekTurns(sp, dirs, val, 0);
    assert dirs[0..] == dirs;
  }

  lemma ShapeOf(t: Tree, t': Tree, val: nat, n: nat, ct: Tree, chunk: Chunk, levels: nat, left: bool, turns: nat,
               need: bool, failed: bool, chunks: int, interiors: int)
    requires Under(val, t) ==> left && LeftDepth(t) == n && LeftCount(t) == chunk.count && AllAtLeast(chunk.Vals(), val + 1)
    requires !need || failed ==> chunks == 1 && interiors == n
    requires (!need || failed) && left ==> LeftDepth(t') == n + LeftDepth(ct) && LeftCount(t') == LeftCount(ct)
    requires (!need || failed) && left ==> RightSize(t') == RightSize(if n == 0 then ct else t)
    requires Sprouts(ct, chunk, val, levels) && levels == LeafLevels(chunk.count == CHUNK_CAP)
    requires StepsKept(t, t', turns, levels, failed || !need) && turns == TurnsTo(t, val) && n == PathLen(t, val)
    requires EndCount(t, val) == chunk.count && (need <==> Overdeep(Some(t), val))
    ensures Outgrowth(t, t', val, failed, chunks, interiors)
  {
    hide Overdeep, StepsKept, PathLen, TurnsTo, EndCount, LeftDepth, LeftCount, RightSize;
  }

  lemma LeftFacts(sp: seq<Tree>, dirs: seq<bool>, val: nat, leaf: Slot, chunk: Chunk)
    requires Seeks(sp, dirs, val) && sp[|dirs|] == Leaf(leaf, chunk) && Ordered(sp[0])
    ensures Under(val, sp[0]) ==>
      AllLeft(dirs) && LeftDepth(sp[0]) == |dirs| && LeftCount(sp[0]) == chunk.count && AllAtLeast(chunk.Vals(), val + 1)
  {
    if Under(val, sp[0]) {
      UnderTurns(sp, dirs, val, |dirs|);
      LeftWalk(sp, dirs, 0);
    }
  }
}
