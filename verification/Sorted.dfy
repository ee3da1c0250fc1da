/** Strictly ascending sequences of neighbour ids: the meaning of every chunk, tree and batch. */
module Sorted {

  ghost predicate Ascending(s: seq<nat>) {
    forall i, j :: 0 <= i < j < |s| ==> s[i] < s[j]
  }

  ghost predicate AllBelow(s: seq<nat>, v: nat) {
    forall i :: 0 <= i < |s| ==> s[i] < v
  }

  ghost predicate AllAtLeast(s: seq<nat>, v: nat) {
    forall i :: 0 <= i < |s| ==> v <= s[i]
  }

  /** `p` cuts `s` between the elements below `v` and the rest. */
  ghost predicate Cuts(s: seq<nat>, v: nat, p: nat) {
    && p <= |s|
    && (forall i :: 0 <= i < p ==> s[i] < v)
    && (forall i :: p <= i < |s| ==> v <= s[i])
  }

  /** The number of elements of an ascending sequence below `v`. */
  function LowerBound(s: seq<nat>, v: nat): (p: nat)
    requires Ascending(s)
    ensures Cuts(s, v, p)
  {
    if s == [] then 0
    else if v <= s[0] then 0
    else
      var tail := s[1..];
      assert forall i :: 0 <= i < |tail| ==> tail[i] == s[i + 1];
      var p := 1 + LowerBound(tail, v);
      assert forall i :: 0 < i < |s| ==> s[i] == tail[i - 1];
      p
  }

  lemma CutUnique(s: seq<nat>, v: nat, p: nat, q: nat)
    requires Cuts(s, v, p) && Cuts(s, v, q)
    ensures p == q
  {
    var m := if p < q then p else q;
    assert m < |s| ==> s[m] < v || v <= s[m];
  }

  /** The ascending sequence `s` with `v` put in its place. */
  function Ins(s: seq<nat>, v: nat): (r: seq<nat>)
    requires Ascending(s)
    ensures |r| == |s| + 1
  {
    var p := LowerBound(s, v);
    s[..p] + [v] + s[p..]
  }

  lemma InsAt(s: seq<nat>, v: nat, p: nat)
    requires Ascending(s) && Cuts(s, v, p)
    ensures Ins(s, v) == s[..p] + [v] + s[p..]
  {
    CutUnique(s, v, p, LowerBound(s, v));
  }

  lemma InsMembers(s: seq<nat>, v: nat, x: nat)
    requires Ascending(s)
    ensures x in Ins(s, v) <==> x == v || x in s
  {
    var p := LowerBound(s, v);
    assert s == s[..p] + s[p..];
  }

  lemma InsAscending(s: seq<nat>, v: nat)
    requires Ascending(s) && v !in s
    ensures Ascending(Ins(s, v))
  {
    var p := LowerBound(s, v);
    var r := Ins(s, v);
    forall i, j | 0 <= i < j < |r| ensures r[i] < r[j] {
      assert r[i] == if i < p then s[i] else if i == p then v else s[i - 1];
      assert r[j] == if j < p then s[j] else if j == p then v else s[j - 1];
    }
  }

  lemma ConcatAscending(a: seq<nat>, b: seq<nat>, key: nat)
    requires Ascending(a) && Ascending(b) && AllBelow(a, key) && AllAtLeast(b, key)
    ensures Ascending(a + b)
  {
    var s := a + b;
    forall i, j | 0 <= i < j < |s| ensures s[i] < s[j] {
      if i < |a| <= j {
        assert a[i] < key <= b[j - |a|];
      }
    }
  }

  lemma CutLeft(a: seq<nat>, b: seq<nat>, key: nat, v: nat, p: nat)
    requires AllAtLeast(b, key) && v <= key && Cuts(a, v, p)
    ensures Cuts(a + b, v, p)
  {
    forall i | p <= i < |a + b| ensures v <= (a + b)[i] {
      assert (a + b)[i] == if i < |a| then a[i] else b[i - |a|];
    }
  }

  lemma CutRight(a: seq<nat>, b: seq<nat>, key: nat, v: nat, p: nat)
    requires AllBelow(a, key) && key <= v && Cuts(b, v, p)
    ensures Cuts(a + b, v, |a| + p)
  {
    forall i | 0 <= i < |a + b| ensures if i < |a| + p then (a + b)[i] < v else v <= (a + b)[i] {
      assert (a + b)[i] == if i < |a| then a[i] else b[i - |a|];
    }
  }

  /** Inserting on one side of a separating key leaves the other side alone. */
  lemma InsLeft(a: seq<nat>, b: seq<nat>, key: nat, v: nat)
    requires Ascending(a) && Ascending(b) && AllBelow(a, key) && AllAtLeast(b, key)
    requires v < key
    ensures Ascending(a + b) && Ins(a + b, v) == Ins(a, v) + b
  {
    ConcatAscending(a, b, key);
    var p := LowerBound(a, v);
    CutLeft(a, b, key, v, p);
    InsAt(a + b, v, p);
    SpliceLeft(a, b, v, p);
  }

  lemma InsRight(a: seq<nat>, b: seq<nat>, key: nat, v: nat)
    requires Ascending(a) && Ascending(b) && AllBelow(a, key) && AllAtLeast(b, key)
    requires key <= v
    ensures Ascending(a + b) && Ins(a + b, v) == a + Ins(b, v)
  {
    ConcatAscending(a, b, key);
    var p := LowerBound(b, v);
    CutRight(a, b, key, v, p);
    InsAt(a + b, v, |a| + p);
    SpliceRight(a, b, v, p);
  }

  lemma SpliceLeft(a: seq<nat>, b: seq<nat>, v: nat, p: nat)
    requires p <= |a|
    ensures (a + b)[..p] + [v] + (a + b)[p..] == a[..p] + [v] + a[p..] + b
  {
  }

  lemma SpliceRight(a: seq<nat>, b: seq<nat>, v: nat, p: nat)
    requires p <= |b|
    ensures (a + b)[..|a| + p] + [v] + (a + b)[|a| + p..] == a + (b[..p] + [v] + b[p..])
  {
  }

  /** The distinct elements of `s`, ascending. */
  function SortDedup(s: seq<nat>): (r: seq<nat>)
    ensures Ascending(r)
    ensures forall x :: x in r <==> x in s
  {
    if s == [] then []
    else
      var last, rest := s[|s| - 1], SortDedup(s[..|s| - 1]);
      assert s == s[..|s| - 1] + [last];
      if last in rest then rest
      else
        InsAscending(rest, last);
        assert forall x :: x in Ins(rest, last) <==> x == last || x in rest by {
          forall x ensures x in Ins(rest, last) <==> x == last || x in rest { InsMembers(rest, last, x); }
        }
        Ins(rest, last)
  }

  /** An ascending sequence is determined by its elements. */
  lemma {:induction false} AscendingUnique(a: seq<nat>, b: seq<nat>)
    requires Ascending(a) && Ascending(b)
    requires forall x :: x in a <==> x in b
    ensures a == b
  {
    assert a != [] ==> a[0] in b;
    assert b != [] ==> b[0] in a;
    if a != [] {
      var x, y := a[|a| - 1], b[|b| - 1];
      assert x in b && y in a;
      assert x == y;
      var a', b' := a[..|a| - 1], b[..|b| - 1];
      assert a == a' + [x] && b == b' + [x];
      assert x !in a' && x !in b';
      forall z ensures z in a' <==> z in b' {
        assert z in a <==> z == x || z in a';
        assert z in b <==> z == x || z in b';
      }
      AscendingUnique(a', b');
    }
  }
}
