/** Cache-line chunks: at most 15 strictly ascending ids in 15 lanes. */
module Chunks {
  import opened Options
  import opened Sorted

  const CHUNK_CAP: nat := 15

  /** `data` always has all 15 lanes; only the first `count` are valid. */
  datatype Chunk = Chunk(count: nat, data: seq<nat>) {
    function Vals(): seq<nat> {
      if count <= |data| then data[..count] else []
    }

    ghost predicate Valid() {
      |data| == CHUNK_CAP && count <= CHUNK_CAP && Ascending(Vals())
    }
  }

  function FromSorted(vals: seq<nat>): (c: Chunk)
    requires |vals| <= CHUNK_CAP
    ensures c.Vals() == vals && |c.data| == CHUNK_CAP && c.count == |vals|
  {
    Chunk(|vals|, vals + seq(CHUNK_CAP - |vals|, i => 0))
  }

  /** The branchless scan: every lane is compared, the ones past `count` masked out. */
  method Search(c: Chunk, val: nat) returns (found: bool, pos: nat)
    requires c.Valid()
    ensures found <==> val in c.Vals()
    ensures Cuts(c.Vals(), val, pos)
  {
    var n := c.count;
    ghost var vals := c.Vals();
    assert forall k :: 0 <= k < n ==> vals[k] == c.data[k];
    pos, found := 0, false;
    for i := 0 to CHUNK_CAP
      invariant pos <= i && pos <= n
      invariant forall k :: 0 <= k < pos ==> vals[k] < val
      invariant forall k :: pos <= k < i && k < n ==> val <= vals[k]
      invariant found <==> exists k :: 0 <= k < i && k < n && vals[k] == val
    {
      var inRange := i < n;
      assert pos < i < n ==> vals[pos] < vals[i];
      if inRange && c.data[i] < val {
        pos := pos + 1;
      }
      found := found || (inRange && c.data[i] == val);
    }
  }

  /** A new chunk with `val` in place, or `None` when it is already there. */
  method Insert(c: Chunk, val: nat) returns (r: Option<Chunk>)
    requires c.Valid() && c.count < CHUNK_CAP
    ensures r.None? <==> val in c.Vals()
    ensures r.Some? ==> r.value.Valid() && r.value.Vals() == Ins(c.Vals(), val) && r.value.count == c.count + 1
  {
    var found, pos := Search(c, val);
    if found {
      return None;
    }
    InsAscending(c.Vals(), val);
    InsAt(c.Vals(), val, pos);
    var vals := c.data[..pos] + [val] + c.data[pos..c.count];
    assert vals == Ins(c.Vals(), val);
    r := Some(FromSorted(vals));
  }

  /** Halves of a chunk: the first `count / 2` ids, and the rest. */
  method Split(c: Chunk) returns (left: Chunk, right: Chunk)
    requires c.Valid() && c.count >= 2
    ensures left.Valid() && right.Valid()
    ensures left.Vals() + right.Vals() == c.Vals()
    ensures left.count == c.count / 2 && right.count == c.count - c.count / 2
    ensures AllBelow(left.Vals(), right.data[0]) && AllAtLeast(right.Vals(), right.data[0])
  {
    var mid := c.count / 2;
    left, right := FromSorted(c.data[..mid]), FromSorted(c.data[mid..c.count]);
    assert c.Vals() == c.data[..mid] + c.data[mid..c.count];
    HalvesAscending(c.Vals(), c.data[..mid], c.data[mid..c.count]);
    hide Ascending;
  }

  lemma HalvesAscending(vals: seq<nat>, l: seq<nat>, r: seq<nat>)
    requires Ascending(vals) && vals == l + r && r != []
    ensures Ascending(l) && Ascending(r) && AllBelow(l, r[0]) && AllAtLeast(r, r[0])
  {
    assert forall i :: 0 <= i < |l| ==> l[i] == vals[i];
    assert forall i :: 0 <= i < |r| ==> r[i] == vals[|l| + i];
  }
}
