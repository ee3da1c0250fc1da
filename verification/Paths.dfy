/** Root-to-leaf paths through a tree, and what replacing a node along one does to the tree. */
module Paths {
  import opened Sorted
  import opened Trees
  import opened Balance

  /** The turns of `sp` are the ones a search for `val` takes. */
  ghost predicate Seeks(sp: seq<Tree>, dirs: seq<bool>, val: nat) {
    Walk(sp, dirs) && forall i :: 0 <= i < |dirs| ==> (dirs[i] <==> val < sp[i].key)
  }

  /** Interiors on the search path of `val`. */
  ghost function PathLen(t: Tree, val: nat): nat {
    match t
    case Leaf(_, _) => 0
    case Branch(_, l, r, _, key) => 1 + PathLen(if val < key then l else r, val)
  }

  lemma {:induction false} PathWithinHeight(t: Tree, val: nat)
    ensures PathLen(t, val) <= Height(t)
  {
    match t
    case Leaf(_, _) =>
    case Branch(_, l, r, _, key) =>
      PathWithinHeight(l, val);
      PathWithinHeight(r, val);
  }

  /** Every tree on a path is stored, sound, and made of slots of the whole. */
  lemma {:induction false} OnPath(m: Mem, sp: seq<Tree>, dirs: seq<bool>, i: nat)
    requires Walk(sp, dirs) && i < |sp| && Stored(m, sp[0]) && Sound(sp[0])
    ensures Stored(m, sp[i]) && Sound(sp[i]) && Slots(sp[i]) <= Slots(sp[0])
  {
    if i > 0 {
      OnPath(m, sp, dirs, i - 1);
      assert sp[i] == if dirs[i - 1] then sp[i - 1].left else sp[i - 1].right;
    }
  }

  /** Slots of the nodes of `sp` from position `i` on. */
  ghost function SpineSlots(sp: seq<Tree>, i: nat): set<Slot>
    requires i <= |sp|
    decreases |sp| - i
  {
    if i == |sp| then {} else {sp[i].slot} + SpineSlots(sp, i + 1)
  }

  /** Slots of the nodes of `sp` at positions `i` to `j - 1`. */
  ghost function SpineBetween(sp: seq<Tree>, i: nat, j: nat): set<Slot>
    requires i <= j <= |sp|
    decreases j - i
  {
    if i == j then {} else {sp[i].slot} + SpineBetween(sp, i + 1, j)
  }

  /** The other child of a node on the path. */
  function Sibling(t: Tree, left: bool): Tree
    requires t.Branch?
  {
    if left then t.right else t.left
  }

  function Child(t: Tree, left: bool): Tree
    requires t.Branch?
  {
    if left then t.left else t.right
  }

  /** A copy of `t` at slot `s` with one child replaced. */
  function WithChild(t: Tree, left: bool, s: Slot, child: Tree, count: nat): Tree
    requires t.Branch?
  {
    if left then Branch(s, child, t.right, count, t.key) else Branch(s, t.left, child, count, t.key)
  }

  /** `nt` took the place of `t`: it lost the slots `gone` of `t` and gained `added`. */
  ghost predicate Replaces(t: Tree, nt: Tree, gone: set<Slot>, added: set<Slot>) {
    gone <= Slots(t) && Slots(nt) == (Slots(t) - gone) + added
  }

  lemma ReplaceSlots(t: Tree, left: bool, s: Slot, child: Tree, count: nat, gone: set<Slot>, added: set<Slot>)
    requires t.Branch? && Apart(t) && Apart(child)
    requires Replaces(Child(t, left), child, gone, added)
    requires added !! Slots(t) && s !in added && s !in Slots(t)
    ensures Apart(WithChild(t, left, s, child, count))
    ensures Replaces(t, WithChild(t, left, s, child, count), {t.slot} + gone, added + {s})
  {
    var c, b := Slots(Child(t, left)), Slots(Sibling(t, left));
    assert Slots(t) == {t.slot} + c + b;
    assert Slots(WithChild(t, left, s, child, count)) == {s} + Slots(child) + b;
  }

  lemma ReplaceHeight(t: Tree, left: bool, s: Slot, child: Tree, count: nat, bound: nat)
    requires t.Branch? && Height(child) <= Max(Height(Child(t, left)), bound)
    ensures Height(WithChild(t, left, s, child, count)) <= Max(Height(t), bound + 1)
  {
  }

  /** Replacing a child by the same child with `val` inserted. */
  lemma InsertOrdered(t: Tree, left: bool, s: Slot, child: Tree, val: nat)
    requires t.Branch? && Ordered(t) && (left <==> val < t.key)
    requires Ordered(child) && Ascending(Elems(Child(t, left))) && val !in Elems(Child(t, left))
    requires Elems(child) == Ins(Elems(Child(t, left)), val)
    ensures Ordered(WithChild(t, left, s, child, t.count + 1))
    ensures Ascending(Elems(t)) && val !in Elems(t)
    ensures Elems(WithChild(t, left, s, child, t.count + 1)) == Ins(Elems(t), val)
  {
    OrderedElems(t.left);
    OrderedElems(t.right);
    OrderedElems(child);
    var l, r := Elems(t.left), Elems(t.right);
    if left {
      InsLeft(l, r, t.key, val);
      InsBelow(l, val, t.key);
      NotAbove(r, t.key, val);
    } else {
      InsRight(l, r, t.key, val);
      InsAbove(r, val, t.key);
      NotBelow(l, t.key, val);
    }
  }

  lemma InsBelow(s: seq<nat>, v: nat, key: nat)
    requires Ascending(s) && AllBelow(s, key) && v < key
    ensures AllBelow(Ins(s, v), key)
  {
  }

  lemma InsAbove(s: seq<nat>, v: nat, key: nat)
    requires Ascending(s) && AllAtLeast(s, key) && key <= v
    ensures AllAtLeast(Ins(s, v), key)
  {
  }

  lemma NotAbove(s: seq<nat>, key: nat, v: nat)
    requires AllAtLeast(s, key) && v < key
    ensures v !in s
  {
  }

  lemma NotBelow(s: seq<nat>, key: nat, v: nat)
    requires AllBelow(s, key) && key <= v
    ensures v !in s
  {
  }

  /** Replacing a child by another arrangement of the same contents. */
  lemma RecopyOrdered(t: Tree, left: bool, s: Slot, child: Tree)
    requires t.Branch? && Ordered(t) && Ordered(child) && Elems(child) == Elems(Child(t, left))
    ensures Ordered(WithChild(t, left, s, child, t.count))
    ensures Elems(WithChild(t, left, s, child, t.count)) == Elems(t)
  {
    OrderedElems(child);
    OrderedElems(Child(t, left));
  }

  lemma WalkCons(t: Tree, left: bool, sp: seq<Tree>, dirs: seq<bool>)
    requires Walk(sp, dirs) && t.Branch? && sp[0] == Child(t, left)
    ensures Walk([t] + sp, [left] + dirs)
  {
    forall i | 0 <= i < |dirs| + 1
      ensures ([t] + sp)[i].Branch?
      ensures ([t] + sp)[i + 1] == Child(([t] + sp)[i], ([left] + dirs)[i])
    {
      if i > 0 {
        assert sp[i - 1].Branch?;
      }
    }
  }

  /** Searching along the path decides membership. */
  lemma {:induction false} SeekDecides(sp: seq<Tree>, dirs: seq<bool>, val: nat, i: nat)
    requires Seeks(sp, dirs, val) && Ordered(sp[0]) && i < |sp|
    ensures Ordered(sp[i]) && (val in Elems(sp[0]) <==> val in Elems(sp[i]))
  {
    if i > 0 {
      SeekDecides(sp, dirs, val, i - 1);
      var t := sp[i - 1];
      assert sp[i] == Child(t, dirs[i - 1]);
      assert dirs[i - 1] <==> val < t.key;
      if dirs[i - 1] {
        NotAbove(Elems(t.right), t.key, val);
      } else {
        NotBelow(Elems(t.left), t.key, val);
      }
    }
  }

  lemma {:induction false} SpineWithin(sp: seq<Tree>, dirs: seq<bool>, i: nat)
    requires Walk(sp, dirs) && i < |sp| && Apart(sp[i])
    ensures SpineSlots(sp, i) <= Slots(sp[i])
    ensures i < |dirs| ==> sp[i].slot !in SpineSlots(sp, i + 1)
    decreases |sp| - i
  {
    if i < |dirs| {
      assert sp[i + 1] == Child(sp[i], dirs[i]);
      SpineWithin(sp, dirs, i + 1);
    }
  }

  /** Ancestors of a node on the path are distinct from each other and from its subtree. */
  lemma {:induction false} AncestorsApart(sp: seq<Tree>, dirs: seq<bool>, i: nat, j: nat)
    requires Walk(sp, dirs) && i <= j < |sp| && Apart(sp[i])
    ensures Apart(sp[j])
    ensures SpineBetween(sp, i, j) !! Slots(sp[j])
    ensures SpineBetween(sp, i, j) + Slots(sp[j]) <= Slots(sp[i])
    ensures i < j ==> sp[i].slot !in SpineBetween(sp, i + 1, j)
    decreases j - i
  {
    if i < j {
      assert sp[i + 1] == Child(sp[i], dirs[i]);
      AncestorsApart(sp, dirs, i + 1, j);
    }
  }

  lemma {:induction false} SpineSplit(sp: seq<Tree>, i: nat)
    requires i < |sp|
    ensures SpineSlots(sp, i) == SpineBetween(sp, i, |sp| - 1) + {sp[|sp| - 1].slot}
    decreases |sp| - i
  {
    if i + 1 < |sp| {
      SpineSplit(sp, i + 1);
    } else {
      assert SpineSlots(sp, i + 1) == {};
    }
  }

  // -- Left turns -----------------------------------------------------------------

  ghost function LeftTurns(dirs: seq<bool>): nat {
    if dirs == [] then 0 else (if dirs[0] then 1 else 0) + LeftTurns(dirs[1..])
  }

  /** Left turns on the search path of `val`. */
  ghost function TurnsTo(t: Tree, val: nat): nat {
    match t
    case Leaf(_, _) => 0
    case Branch(_, l, r, _, key) => if val < key then 1 + TurnsTo(l, val) else TurnsTo(r, val)
  }

  /** Elements in the leaf where the search path of `val` ends. */
  ghost function EndCount(t: Tree, val: nat): nat {
    match t
    case Leaf(_, chunk) => chunk.count
    case Branch(_, l, r, _, key) => EndCount(if val < key then l else r, val)
  }

  /** Interiors on the leftmost path, and elements in its leaf. */
  ghost function LeftDepth(t: Tree): nat {
    match t
    case Leaf(_, _) => 0
    case Branch(_, l, _, _, _) => 1 + LeftDepth(l)
  }

  ghost function LeftCount(t: Tree): nat {
    match t
    case Leaf(_, chunk) => chunk.count
    case Branch(_, l, _, _, _) => LeftCount(l)
  }

  /** Elements to the right of the root. */
  ghost function RightSize(t: Tree): nat {
    if t.Branch? then Size(t.right) else 0
  }

  /** The value is below every element. */
  ghost predicate Under(val: nat, t: Tree) {
    AllAtLeast(Elems(t), val + 1)
  }

  /** A value below every element is looked for down the leftmost path. */
  lemma {:induction false} UnderLeft(t: Tree, val: nat)
    requires Ordered(t) && Under(val, t)
    ensures PathLen(t, val) == TurnsTo(t, val) == LeftDepth(t) && EndCount(t, val) == LeftCount(t)
    ensures val !in Elems(t)
  {
    match t
    case Leaf(_, _) =>
    case Branch(_, l, r, _, key) =>
      OrderedElems(l);
      assert Elems(l)[0] == Elems(t)[0];
      assert forall i :: 0 <= i < |Elems(l)| ==> Elems(l)[i] == Elems(t)[i];
      UnderLeft(l, val);
  }

  lemma {:induction false} UnderTurns(sp: seq<Tree>, dirs: seq<bool>, val: nat, i: nat)
    requires Seeks(sp, dirs, val) && Ordered(sp[0]) && Under(val, sp[0]) && i <= |dirs|
    ensures Ordered(sp[i]) && Under(val, sp[i]) && forall j :: 0 <= j < i ==> dirs[j]
  {
    if i > 0 {
      UnderTurns(sp, dirs, val, i - 1);
      var t := sp[i - 1];
      OrderedElems(t.left);
      assert Elems(t.left)[0] == Elems(t)[0];
      assert forall k :: 0 <= k < |Elems(t.left)| ==> Elems(t.left)[k] == Elems(t)[k];
    }
  }

  /** A path that never turns right, read off its recorded trees. */
  lemma {:induction false} LeftWalk(sp: seq<Tree>, dirs: seq<bool>, i: nat)
    requires Walk(sp, dirs) && i <= |dirs| && forall j :: 0 <= j < |dirs| ==> dirs[j]
    ensures LeftDepth(sp[i]) == |dirs| - i + LeftDepth(sp[|dirs|]) && LeftCount(sp[i]) == LeftCount(sp[|dirs|])
    decreases |dirs| - i
  {
    if i < |dirs| {
      LeftWalk(sp, dirs, i + 1);
      assert sp[i + 1] == sp[i].left;
    }
  }

  /** `TurnsTo` and `EndCount`, read off a recorded search path. */
  lemma {:induction false} SeekTurns(sp: seq<Tree>, dirs: seq<bool>, val: nat, i: nat)
    requires Seeks(sp, dirs, val) && i <= |dirs|
    ensures TurnsTo(sp[i], val) == LeftTurns(dirs[i..]) + TurnsTo(sp[|dirs|], val)
    ensures EndCount(sp[i], val) == EndCount(sp[|dirs|], val)
    decreases |dirs| - i
  {
    if i < |dirs| {
      SeekTurns(sp, dirs, val, i + 1);
      assert dirs[i..][1..] == dirs[i + 1..];
      assert sp[i + 1] == if dirs[i] then sp[i].left else sp[i].right;
    }
  }

  /** No path turns left more often than `LeftSteps` says. */
  lemma {:induction false} TurnsWithin(sp: seq<Tree>, dirs: seq<bool>, i: nat)
    requires Walk(sp, dirs) && i <= |dirs|
    ensures LeftTurns(dirs[i..]) + LeftSteps(sp[|dirs|]) <= LeftSteps(sp[i])
    decreases |dirs| - i
  {
    if i < |dirs| {
      TurnsWithin(sp, dirs, i + 1);
      assert dirs[i..][1..] == dirs[i + 1..];
      assert sp[i + 1] == if dirs[i] then sp[i].left else sp[i].right;
    }
  }

  lemma {:induction false} TurnsBelow(t: Tree, val: nat)
    ensures TurnsTo(t, val) <= LeftSteps(t) && TurnsTo(t, val) <= PathLen(t, val)
  {
    match t
    case Leaf(_, _) =>
    case Branch(_, l, r, _, key) => TurnsBelow(if val < key then l else r, val);
  }

  /** Some path turns left that often. */
  lemma {:induction false} TurnsReached(t: Tree) returns (sp: seq<Tree>, dirs: seq<bool>)
    ensures Walk(sp, dirs) && sp[0] == t && LeftTurns(dirs) == LeftSteps(t)
  {
    match t
    case Leaf(_, _) =>
      sp, dirs := [t], [];
    case Branch(_, l, r, _, _) =>
      var left := 1 + LeftSteps(l) >= LeftSteps(r);
      var sp1, dirs1 := TurnsReached(if left then l else r);
      WalkCons(t, left, sp1, dirs1);
      sp, dirs := [t] + sp1, [left] + dirs1;
      assert dirs[1..] == dirs1;
  }

  lemma {:induction false} TurnsUpTo(dirs: seq<bool>)
    ensures LeftTurns(dirs) <= |dirs|
  {
    if dirs != [] {
      TurnsUpTo(dirs[1..]);
    }
  }

  /** A traversal that has room for `n` entries never needs more exactly when no path turns left more often. */
  lemma StackSuffices(t: Tree, n: nat)
    ensures LeftSteps(t) <= n <==> forall sp, dirs :: Walk(sp, dirs) && sp[0] == t ==> LeftTurns(dirs) <= n
  {
    if LeftSteps(t) <= n {
      forall sp, dirs | Walk(sp, dirs) && sp[0] == t ensures LeftTurns(dirs) <= n {
        TurnsWithin(sp, dirs, 0);
        assert dirs[0..] == dirs;
      }
    } else {
      var sp, dirs := TurnsReached(t);
    }
  }
}
