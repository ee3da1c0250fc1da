/**
 * The persistent radix table of roots behind a snapshot. Its nodes never change once built, so a
 * commit copies only the leaves its guard touched and shares every other node.
 */
module RootTables {
  import opened Options
  import opened Trees

  const LEAF: nat := 256
  const FAN: nat := 256
  /** Leaves under one upper node, and vertices under it. */
  const UPPER: nat := 65536
  const SPAN: nat := 16777216

  class TableLeaf {
    const roots: seq<Option<Slot>>

    constructor (roots: seq<Option<Slot>>)
      ensures this.roots == roots
    {
      this.roots := roots;
    }
  }

  class TableMid {
    const leaves: seq<TableLeaf>

    constructor (leaves: seq<TableLeaf>)
      ensures this.leaves == leaves
    {
      this.leaves := leaves;
    }
  }

  class TableUpper {
    const mids: seq<TableMid>

    constructor (mids: seq<TableMid>)
      ensures this.mids == mids
    {
      this.mids := mids;
    }
  }

  ghost predicate MidShape(m: TableMid) {
    |m.leaves| == FAN && forall i :: 0 <= i < FAN ==> |m.leaves[i].roots| == LEAF
  }

  ghost predicate UpperShape(u: TableUpper) {
    |u.mids| == FAN && forall i :: 0 <= i < FAN ==> MidShape(u.mids[i])
  }

  ghost predicate Shape(top: seq<TableUpper>) {
    forall i :: 0 <= i < |top| ==> UpperShape(top[i])
  }

  /** Leaf `l` of the table: the roots of vertices `LEAF * l` up to `LEAF * (l + 1)`. */
  function LeafIn(u: TableUpper, l: nat): TableLeaf
    requires UpperShape(u)
  {
    u.mids[l / FAN % FAN].leaves[l % FAN]
  }

  function LeafOf(top: seq<TableUpper>, l: nat): TableLeaf
    requires Shape(top) && l / UPPER < |top|
  {
    LeafIn(top[l / UPPER], l)
  }

  function Get(top: seq<TableUpper>, v: nat): Option<Slot>
    requires Shape(top) && v / SPAN < |top|
  {
    top[v / SPAN].mids[v / (LEAF * FAN) % FAN].leaves[v / LEAF % FAN].roots[v % LEAF]
  }

  /** Leaf `l` of the live roots, padded with the null root. */
  function CopyLeaf(l: nat, roots: seq<Option<Slot>>): (r: seq<Option<Slot>>)
    ensures |r| == LEAF
    ensures forall i :: 0 <= i < LEAF ==> r[i] == if LEAF * l + i < |roots| then roots[LEAF * l + i] else None
  {
    seq(LEAF, i requires 0 <= i < LEAF => if LEAF * l + i < |roots| then roots[LEAF * l + i] else None)
  }

  /** What copying some leaves did to leaf `l`. */
  ghost predicate Copied(l: nat, before: TableLeaf, after: TableLeaf, copied: seq<nat>, roots: seq<Option<Slot>>) {
    if l in copied then after.roots == CopyLeaf(l, roots) else after == before
  }

  /** How many elements at the front of `s` satisfy `p`. */
  function PrefixLen(s: seq<nat>, p: nat -> bool): (n: nat)
    ensures n <= |s| && forall i :: 0 <= i < n ==> p(s[i])
    ensures s != [] && p(s[0]) ==> n > 0
  {
    if s == [] || !p(s[0]) then 0
    else
      var n := 1 + PrefixLen(s[1..], p);
      assert forall i :: 0 <= i < n ==> p(s[i]) by {
        forall i | 0 <= i < n ensures p(s[i]) {
          assert i > 0 ==> s[i] == s[1..][i - 1];
        }
      }
      n
  }

  ghost predicate MidCopied(m: TableMid, m': TableMid, base: nat, copied: seq<nat>, roots: seq<Option<Slot>>)
    requires MidShape(m) && MidShape(m')
  {
    forall i :: 0 <= i < FAN ==> Copied(FAN * base + i, m.leaves[i], m'.leaves[i], copied, roots)
  }

  method WithMid(m: TableMid, group: seq<nat>, base: nat, roots: seq<Option<Slot>>) returns (m': TableMid)
    requires MidShape(m)
    requires forall k :: 0 <= k < |group| ==> group[k] / FAN == base
    ensures MidShape(m') && MidCopied(m, m', base, group, roots)
  {
    var leaves := m.leaves;
    assert group[..|group|] == group;
    for k := 0 to |group|
      invariant |leaves| == FAN && forall i :: 0 <= i < FAN ==> |leaves[i].roots| == LEAF
      invariant forall i :: 0 <= i < FAN ==> Copied(FAN * base + i, m.leaves[i], leaves[i], group[..k], roots)
    {
      var l := group[k];
      var leaf := new TableLeaf(CopyLeaf(l, roots));
      assert group[..k + 1] == group[..k] + [l];
      leaves := leaves[l % FAN := leaf];
    }
    m' := new TableMid(leaves);
  }

  /** The leaves of one upper node before and after; `base` is its index. */
  ghost predicate UpperCopied(u: TableUpper, u': TableUpper, base: nat, copied: seq<nat>, roots: seq<Option<Slot>>)
    requires UpperShape(u) && UpperShape(u')
  {
    forall j, i :: 0 <= j < FAN && 0 <= i < FAN ==>
      Copied(FAN * (FAN * base + j) + i, u.mids[j].leaves[i], u'.mids[j].leaves[i], copied, roots)
  }

  ghost predicate MidsCopied(u: TableUpper, mids: seq<TableMid>, base: nat, copied: seq<nat>, roots: seq<Option<Slot>>)
    requires UpperShape(u)
  {
    && |mids| == FAN
    && forall j :: 0 <= j < FAN ==> MidShape(mids[j]) && MidCopied(u.mids[j], mids[j], FAN * base + j, copied, roots)
  }

  /** Copying more leaves of one mid node: the earlier copies of that node are kept or made again. */
  lemma MidStep(m0: TableMid, m1: TableMid, m2: TableMid, base: nat, done: seq<nat>, group: seq<nat>, roots: seq<Option<Slot>>)
    requires MidShape(m0) && MidShape(m1) && MidShape(m2)
    requires MidCopied(m0, m1, base, done, roots) && MidCopied(m1, m2, base, group, roots)
    ensures MidCopied(m0, m2, base, done + group, roots)
  {
    hide CopyLeaf;
  }

  lemma MidAside(m0: TableMid, m1: TableMid, base: nat, done: seq<nat>, group: seq<nat>, roots: seq<Option<Slot>>)
    requires MidShape(m0) && MidShape(m1) && MidCopied(m0, m1, base, done, roots)
    requires forall k :: 0 <= k < |group| ==> group[k] / FAN != base
    ensures MidCopied(m0, m1, base, done + group, roots)
  {
    hide CopyLeaf;
    forall i | 0 <= i < FAN
      ensures Copied(FAN * base + i, m0.leaves[i], m1.leaves[i], done + group, roots)
    {
      var l := FAN * base + i;
      assert l / FAN == base;
      assert l !in group;
      assert l in done + group <==> l in done;
    }
  }

  method WithUpper(u: TableUpper, touched: seq<nat>, base: nat, roots: seq<Option<Slot>>) returns (u': TableUpper)
    requires UpperShape(u)
    requires forall k :: 0 <= k < |touched| ==> touched[k] / UPPER == base
    ensures UpperShape(u') && UpperCopied(u, u', base, touched, roots)
  {
    hide MidShape, MidCopied, CopyLeaf;
    var mids := u.mids;
    var rest := touched;
    ghost var done: seq<nat> := [];
    forall j | 0 <= j < FAN ensures MidCopied(u.mids[j], mids[j], FAN * base + j, done, roots) {
      NothingCopied(u.mids[j], FAN * base + j, roots);
    }
    while rest != []
      invariant done + rest == touched
      invariant MidsCopied(u, mids, base, done, roots)
      decreases |rest|
    {
      var m := rest[0] / FAN % FAN;
      var inMid := PrefixLen(rest, l => l / FAN % FAN == m);
      var group := rest[..inMid];
      InOneMid(touched, done, rest, group, base, m);
      var mid := WithMid(mids[m], group, FAN * base + m, roots);
      MidStep(u.mids[m], mids[m], mid, FAN * base + m, done, group, roots);
      forall j | 0 <= j < FAN && j != m ensures MidCopied(u.mids[j], mids[j], FAN * base + j, done + group, roots) {
        MidAside(u.mids[j], mids[j], FAN * base + j, done, group, roots);
      }
      mids := mids[m := mid];
      rest := rest[inMid..];
      done := done + group;
    }
    assert done == touched;
    u' := new TableUpper(mids);
    AllMids(u, u', base, touched, roots);
  }

  lemma AllMids(u: TableUpper, u': TableUpper, base: nat, copied: seq<nat>, roots: seq<Option<Slot>>)
    requires UpperShape(u) && UpperShape(u') && MidsCopied(u, u'.mids, base, copied, roots)
    ensures UpperCopied(u, u', base, copied, roots)
  {
    hide Copied;
  }

  lemma NothingCopied(m: TableMid, base: nat, roots: seq<Option<Slot>>)
    requires MidShape(m)
    ensures MidCopied(m, m, base, [], roots)
  {
  }

  lemma InOneMid(touched: seq<nat>, done: seq<nat>, rest: seq<nat>, group: seq<nat>, base: nat, m: nat)
    requires done + rest == touched && group <= rest
    requires forall k :: 0 <= k < |touched| ==> touched[k] / UPPER == base
    requires forall k :: 0 <= k < |group| ==> group[k] / FAN % FAN == m
    ensures forall k :: 0 <= k < |group| ==> group[k] / FAN == FAN * base + m
  {
    forall k | 0 <= k < |group| ensures group[k] / FAN == FAN * base + m {
      assert touched[|done| + k] == rest[k] == group[k];
      assert group[k] / UPPER == group[k] / FAN / FAN;
    }
  }

  ghost predicate UppersCopied(top: seq<TableUpper>, top': seq<TableUpper>, copied: seq<nat>, roots: seq<Option<Slot>>)
    requires Shape(top)
  {
    && |top'| == |top|
    && forall u :: 0 <= u < |top| ==> UpperShape(top'[u]) && UpperCopied(top[u], top'[u], u, copied, roots)
  }

  lemma UpperStep(u0: TableUpper, u1: TableUpper, u2: TableUpper, base: nat, done: seq<nat>, group: seq<nat>, roots: seq<Option<Slot>>)
    requires UpperShape(u0) && UpperShape(u1) && UpperShape(u2)
    requires UpperCopied(u0, u1, base, done, roots) && UpperCopied(u1, u2, base, group, roots)
    ensures UpperCopied(u0, u2, base, done + group, roots)
  {
    hide CopyLeaf;
  }

  lemma UpperAside(u0: TableUpper, u1: TableUpper, base: nat, done: seq<nat>, group: seq<nat>, roots: seq<Option<Slot>>)
    requires UpperShape(u0) && UpperShape(u1) && UpperCopied(u0, u1, base, done, roots)
    requires forall k :: 0 <= k < |group| ==> group[k] / UPPER != base
    ensures UpperCopied(u0, u1, base, done + group, roots)
  {
    hide CopyLeaf;
    forall j, i | 0 <= j < FAN && 0 <= i < FAN
      ensures Copied(FAN * (FAN * base + j) + i, u0.mids[j].leaves[i], u1.mids[j].leaves[i], done + group, roots)
    {
      var l := FAN * (FAN * base + j) + i;
      assert l / UPPER == base;
      assert l !in group;
      assert l in done + group <==> l in done;
    }
  }

  lemma NoneCopied(u: TableUpper, base: nat, roots: seq<Option<Slot>>)
    requires UpperShape(u)
    ensures UpperCopied(u, u, base, [], roots)
  {
  }

  lemma InOneUpper(touched: seq<nat>, done: seq<nat>, rest: seq<nat>, group: seq<nat>, u: nat, uppers: nat)
    requires done + rest == touched && group <= rest && rest != []
    requires forall k :: 0 <= k < |touched| ==> touched[k] / UPPER < uppers
    requires u == rest[0] / UPPER
    ensures u < uppers
  {
    assert touched[|done|] == rest[0];
  }

  /** A copy of the table whose leaves in `touched` hold the current roots; every other leaf is shared. */
  method WithLeaves(top: seq<TableUpper>, touched: seq<nat>, roots: seq<Option<Slot>>) returns (top': seq<TableUpper>)
    requires Shape(top)
    requires forall k :: 0 <= k < |touched| ==> touched[k] / UPPER < |top|
    ensures Shape(top') && UppersCopied(top, top', touched, roots)
  {
    hide UpperShape, UpperCopied, CopyLeaf;
    top' := top;
    var rest := touched;
    ghost var done: seq<nat> := [];
    forall u | 0 <= u < |top| ensures UpperCopied(top[u], top'[u], u, done, roots) {
      NoneCopied(top[u], u, roots);
    }
    while rest != []
      invariant done + rest == touched
      invariant UppersCopied(top, top', done, roots)
      decreases |rest|
    {
      var u := rest[0] / UPPER;
      var inUpper := PrefixLen(rest, l => l / UPPER == u);
      var group := rest[..inUpper];
      InOneUpper(touched, done, rest, group, u, |top|);
      var upper := WithUpper(top'[u], group, u, roots);
      UpperStep(top[u], top'[u], upper, u, done, group, roots);
      forall w | 0 <= w < |top| && w != u ensures UpperCopied(top[w], top'[w], w, done + group, roots) {
        UpperAside(top[w], top'[w], w, done, group, roots);
      }
      top' := top'[u := upper];
      rest := rest[inUpper..];
      done := done + group;
    }
    assert done == touched;
  }

  /** Every vertex reads the live root if its leaf was copied, and the old root otherwise. */
  lemma ReadCopied(top: seq<TableUpper>, top': seq<TableUpper>, copied: seq<nat>, roots: seq<Option<Slot>>, v: nat)
    requires Shape(top) && Shape(top') && UppersCopied(top, top', copied, roots) && v / SPAN < |top|
    ensures v / LEAF in copied ==> Get(top', v) == if v < |roots| then roots[v] else None
    ensures v / LEAF !in copied ==> Get(top', v) == Get(top, v)
    ensures v / LEAF !in copied ==> LeafOf(top', v / LEAF) == LeafOf(top, v / LEAF)
  {
    hide CopyLeaf;
    Digits(v);
    var u, j, i := v / SPAN, v / (LEAF * FAN) % FAN, v / LEAF % FAN;
    assert UpperCopied(top[u], top'[u], u, copied, roots);
    assert MidShape(top[u].mids[j]) && MidShape(top'[u].mids[j]);
    assert Copied(FAN * (FAN * u + j) + i, top[u].mids[j].leaves[i], top'[u].mids[j].leaves[i], copied, roots);
  }

  lemma Digits(v: nat)
    ensures v / LEAF == FAN * (FAN * (v / SPAN) + v / (LEAF * FAN) % FAN) + v / LEAF % FAN
    ensures v / LEAF / UPPER == v / SPAN && v / LEAF / FAN == v / (LEAF * FAN)
    ensures LEAF * (v / LEAF) + v % LEAF == v
  {
  }

  /** The all-null table for `n` vertices, one shared node a level. */
  method Empty(n: nat) returns (top: seq<TableUpper>)
    ensures Shape(top) && |top| >= 1 && SPAN * |top| >= n
    ensures forall v: nat :: v / SPAN < |top| ==> Get(top, v) == None
  {
    var leaf := new TableLeaf(seq(LEAF, _ => None));
    var mid := new TableMid(seq(FAN, _ => leaf));
    var upper := new TableUpper(seq(FAN, _ => mid));
    var uppers := (n + SPAN - 1) / SPAN;
    top := seq(if uppers == 0 then 1 else uppers, _ => upper);
  }

  /** Leaf indices `0..k`. */
  function UpTo(k: nat): (r: seq<nat>)
    ensures |r| == k && forall i :: 0 <= i < k ==> r[i] == i
  {
    seq(k, i => i)
  }

  /** A full table of the current roots. */
  method FromRoots(roots: seq<Option<Slot>>) returns (top: seq<TableUpper>)
    ensures Shape(top) && SPAN * |top| >= |roots|
    ensures forall v: nat :: v < |roots| ==> Get(top, v) == roots[v]
  {
    hide Shape, UppersCopied, CopyLeaf;
    var empty := Empty(|roots|);
    var leaves := UpTo((|roots| + LEAF - 1) / LEAF);
    forall k | 0 <= k < |leaves| ensures leaves[k] / UPPER < |empty| {
      LeafFits(k, |roots|, |empty|);
    }
    top := WithLeaves(empty, leaves, roots);
    CopiedLength(empty, top, leaves, roots);
    forall v: nat | v < |roots| ensures v / SPAN < |top| && Get(top, v) == roots[v] {
      VertexFits(v, |roots|, |empty|);
      assert leaves[v / LEAF] == v / LEAF;
      ReadCopied(empty, top, leaves, roots, v);
    }
  }

  lemma CopiedLength(top: seq<TableUpper>, top': seq<TableUpper>, copied: seq<nat>, roots: seq<Option<Slot>>)
    requires Shape(top) && UppersCopied(top, top', copied, roots)
    ensures |top'| == |top|
  {
  }

  lemma LeafFits(k: nat, n: nat, uppers: nat)
    requires k < (n + LEAF - 1) / LEAF && SPAN * uppers >= n
    ensures k / UPPER < uppers
  {
    assert LEAF * k < n;
    assert SPAN * (k / UPPER) <= LEAF * k;
  }

  lemma VertexFits(v: nat, n: nat, uppers: nat)
    requires v < n <= SPAN * uppers
    ensures v / SPAN < uppers && v / LEAF < (n + LEAF - 1) / LEAF
  {
  }
}
