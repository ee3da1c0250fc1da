/** Merging a batch of destinations into the existing neighbours, both ascending. */
module Merges {
  import opened Sorted

  /** What a merge has produced after `i` neighbours and `j` destinations. */
  ghost predicate Merged(e: seq<nat>, d: seq<nat>, i: nat, j: nat, merged: seq<nat>, news: seq<nat>) {
    && i <= |e| && j <= |d|
    && Ascending(merged) && |merged| == i + |news|
    && (forall k :: 0 <= k < |merged| ==> (i < |e| ==> merged[k] < e[i]) && (j < |d| ==> merged[k] < d[j]))
    && (forall k :: 0 <= k < i ==> e[k] in merged)
    && (forall k :: 0 <= k < j ==> d[k] in merged)
    && (forall x :: x in merged ==> x in e || x in news)
    && (forall x :: x in news ==> x in d && x !in e)
    && (forall k :: 0 <= k < j ==> d[k] in news || d[k] in e)
  }

  lemma TakeExisting(e: seq<nat>, d: seq<nat>, i: nat, j: nat, merged: seq<nat>, news: seq<nat>)
    requires Ascending(e) && Ascending(d) && Merged(e, d, i, j, merged, news)
    requires i < |e| && (j < |d| ==> e[i] < d[j])
    ensures Merged(e, d, i + 1, j, merged + [e[i]], news)
  {
  }

  lemma TakeNew(e: seq<nat>, d: seq<nat>, i: nat, j: nat, merged: seq<nat>, news: seq<nat>)
    requires Ascending(e) && Ascending(d) && Merged(e, d, i, j, merged, news)
    requires j < |d| && (i < |e| ==> d[j] < e[i])
    ensures Merged(e, d, i, j + 1, merged + [d[j]], news + [d[j]])
  {
    forall k | 0 <= k < |e| ensures e[k] != d[j] {
      assert k < i ==> e[k] in merged;
    }
  }

  lemma TakeBoth(e: seq<nat>, d: seq<nat>, i: nat, j: nat, merged: seq<nat>, news: seq<nat>)
    requires Ascending(e) && Ascending(d) && Merged(e, d, i, j, merged, news)
    requires i < |e| && j < |d| && e[i] == d[j]
    ensures Merged(e, d, i + 1, j + 1, merged + [e[i]], news)
  {
  }

  /** The union of both, and the destinations that are new. */
  method MergeNew(existing: seq<nat>, dsts: seq<nat>) returns (merged: seq<nat>, news: seq<nat>)
    requires Ascending(existing) && Ascending(dsts)
    ensures Ascending(merged) && |merged| == |existing| + |news|
    ensures forall x :: x in merged <==> x in existing || x in dsts
    ensures forall x :: x in news <==> x in dsts && x !in existing
  {
    hide Merged, Ascending;
    var i, j := 0, 0;
    merged, news := [], [];
    NothingMerged(existing, dsts);
    while i < |existing| && j < |dsts|
      invariant 0 <= i <= |existing| && 0 <= j <= |dsts| && Merged(existing, dsts, i, j, merged, news)
    {
      if existing[i] < dsts[j] {
        TakeExisting(existing, dsts, i, j, merged, news);
        merged := merged + [existing[i]];
        i := i + 1;
      } else if existing[i] > dsts[j] {
        TakeNew(existing, dsts, i, j, merged, news);
        merged := merged + [dsts[j]];
        news := news + [dsts[j]];
        j := j + 1;
      } else {
        TakeBoth(existing, dsts, i, j, merged, news);
        merged := merged + [existing[i]];
        i, j := i + 1, j + 1;
      }
    }
    while i < |existing|
      invariant 0 <= i <= |existing| && 0 <= j <= |dsts| && Merged(existing, dsts, i, j, merged, news)
      invariant i < |existing| ==> j == |dsts|
    {
      TakeExisting(existing, dsts, i, j, merged, news);
      merged := merged + [existing[i]];
      i := i + 1;
    }
    while j < |dsts|
      invariant 0 <= j <= |dsts| && Merged(existing, dsts, |existing|, j, merged, news)
    {
      TakeNew(existing, dsts, |existing|, j, merged, news);
      merged := merged + [dsts[j]];
      news := news + [dsts[j]];
      j := j + 1;
    }
    AllMerged(existing, dsts, merged, news);
  }

  lemma NothingMerged(e: seq<nat>, d: seq<nat>)
    ensures Merged(e, d, 0, 0, [], [])
  {
  }

  lemma AllMerged(e: seq<nat>, d: seq<nat>, merged: seq<nat>, news: seq<nat>)
    requires Merged(e, d, |e|, |d|, merged, news)
    ensures Ascending(merged) && |merged| == |e| + |news|
    ensures forall x :: x in merged <==> x in e || x in d
    ensures forall x :: x in news <==> x in d && x !in e
  {
  }
}
