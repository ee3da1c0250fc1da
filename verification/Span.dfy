/** From the rows of a batch to the fewest granule-aligned byte ranges that cover them. */
module Spans {
  import opened Sorted

  const USIZE_MAX: nat := 0xFFFF_FFFF_FFFF_FFFF

  /** `start & !(granule - 1)` for a power of two. */
  function Lo(start: nat, granule: nat): nat
    requires granule > 0
  {
    start - start % granule
  }

  /** The end of a row rounded up, saturating at the word size and clamped. */
  function Hi(start: nat, rowBytes: nat, granule: nat, limit: nat): nat
    requires granule > 0
  {
    var end := if start + rowBytes > USIZE_MAX then USIZE_MAX else start + rowBytes;
    var up := (end + granule - 1) / granule * granule;
    var hi := if up > USIZE_MAX then USIZE_MAX else up;
    if hi < limit then hi else limit
  }

  /** The byte belongs to the rounded range of one of the first `k` rows. */
  ghost predicate Covered(starts: seq<nat>, k: nat, rowBytes: nat, granule: nat, limit: nat, b: nat)
    requires granule > 0 && k <= |starts|
  {
    exists i :: 0 <= i < k && Lo(starts[i], granule) <= b < Hi(starts[i], rowBytes, granule, limit)
  }

  /** The byte's granule begins before the row's end, and is not before the granule of the row's start. */
  ghost predicate Touches(start: nat, rowBytes: nat, granule: nat, b: nat)
    requires granule > 0
  {
    start / granule <= b / granule && b / granule * granule < start + rowBytes
  }

  ghost predicate InSpans(spans: seq<(nat, nat)>, b: nat) {
    exists i :: 0 <= i < |spans| && spans[i].0 <= b < spans[i].0 + spans[i].1
  }

  /** Ascending, with at least one byte between neighbours. */
  ghost predicate Gapped(spans: seq<(nat, nat)>) {
    forall i, j :: 0 <= i < j < |spans| ==> spans[i].0 + spans[i].1 < spans[j].0
  }

  lemma RoundUp(e: nat, f: nat, g: nat)
    requires e <= f && g > 0
    ensures (e + g - 1) / g * g >= e && (e + g - 1) / g * g <= (f + g - 1) / g * g
  {
    var q := (e + g - 1) / g;
    assert e + g - 1 == q * g + (e + g - 1) % g;
    DivMonotone(e + g - 1, f + g - 1, g);
  }

  lemma DivMonotone(a: nat, b: nat, g: nat)
    requires a <= b && g > 0
    ensures a / g <= b / g && a / g * g <= b / g * g
  {
    var p, q := a / g, b / g;
    MulMonotone(q + 1, p, g);
    MulMonotone(p, q, g);
    assert (q + 1) * g == q * g + g;
  }

  lemma MulMonotone(x: nat, y: nat, g: nat)
    ensures x <= y ==> x * g <= y * g
  {
  }

  lemma DivUnique(q: nat, r: nat, g: nat)
    requires r < g
    ensures (q * g + r) / g == q
  {
    var d := (q * g + r) / g;
    MulMonotone(d + 1, q, g);
    MulMonotone(q + 1, d, g);
    assert (d + 1) * g == d * g + g && (q + 1) * g == q * g + g;
  }

  lemma LoMonotone(a: nat, b: nat, g: nat)
    requires a <= b && g > 0
    ensures Lo(a, g) <= Lo(b, g)
  {
    assert Lo(a, g) == a / g * g && Lo(b, g) == b / g * g;
    DivMonotone(a, b, g);
  }

  lemma HiMonotone(a: nat, b: nat, rowBytes: nat, granule: nat, limit: nat)
    requires a <= b && granule > 0
    ensures Hi(a, rowBytes, granule, limit) <= Hi(b, rowBytes, granule, limit)
  {
    var e := if a + rowBytes > USIZE_MAX then USIZE_MAX else a + rowBytes;
    var f := if b + rowBytes > USIZE_MAX then USIZE_MAX else b + rowBytes;
    RoundUp(e, f, granule);
  }

  lemma LoHi(a: nat, rowBytes: nat, granule: nat, limit: nat)
    requires granule > 0 && a <= limit <= USIZE_MAX
    ensures Lo(a, granule) <= Hi(a, rowBytes, granule, limit) <= limit
    ensures Lo(a, granule) <= a && (a + rowBytes < limit ==> a + rowBytes <= Hi(a, rowBytes, granule, limit))
    ensures a + rowBytes >= limit ==> Hi(a, rowBytes, granule, limit) == limit
  {
    var e := if a + rowBytes > USIZE_MAX then USIZE_MAX else a + rowBytes;
    RoundUp(e, e, granule);
  }

  /** What the loop has built: closed spans, an open run after them, and together the rows seen so far. */
  ghost predicate Open(spans: seq<(nat, nat)>, lo: nat, hi: nat, starts: seq<nat>, k: nat, rowBytes: nat, granule: nat, limit: nat)
    requires granule > 0
  {
    && 0 < k <= |starts| && lo <= hi && Gapped(spans + [(lo, hi - lo)])
    && hi == Hi(starts[k - 1], rowBytes, granule, limit) && lo <= Lo(starts[k - 1], granule)
    && forall b :: InSpans(spans + [(lo, hi - lo)], b) <==> Covered(starts, k, rowBytes, granule, limit, b)
  }

  lemma CoveredMore(starts: seq<nat>, k: nat, rowBytes: nat, granule: nat, limit: nat, b: nat)
    requires granule > 0 && k < |starts|
    ensures Covered(starts, k + 1, rowBytes, granule, limit, b) <==>
      Covered(starts, k, rowBytes, granule, limit, b)
      || Lo(starts[k], granule) <= b < Hi(starts[k], rowBytes, granule, limit)
  {
    hide Lo, Hi;
  }

  lemma InSpansMore(spans: seq<(nat, nat)>, span: (nat, nat), b: nat)
    ensures InSpans(spans + [span], b) <==> InSpans(spans, b) || span.0 <= b < span.0 + span.1
  {
    if InSpans(spans, b) {
      var i :| 0 <= i < |spans| && spans[i].0 <= b < spans[i].0 + spans[i].1;
      assert (spans + [span])[i] == spans[i];
    }
    if span.0 <= b < span.0 + span.1 {
      assert (spans + [span])[|spans|] == span;
    }
  }

  lemma FirstRow(starts: seq<nat>, rowBytes: nat, granule: nat, limit: nat)
    requires granule > 0 && starts != [] && starts[0] <= limit <= USIZE_MAX
    ensures Open([], Lo(starts[0], granule), Hi(starts[0], rowBytes, granule, limit), starts, 1, rowBytes, granule, limit)
  {
    LoHi(starts[0], rowBytes, granule, limit);
    var lo, hi := Lo(starts[0], granule), Hi(starts[0], rowBytes, granule, limit);
    hide Lo, Hi;
    forall b ensures InSpans([] + [(lo, hi - lo)], b) <==> Covered(starts, 1, rowBytes, granule, limit, b) {
      InSpansMore([], (lo, hi - lo), b);
      CoveredMore(starts, 0, rowBytes, granule, limit, b);
    }
  }

  /** The next row touches the open run and extends it. */
  lemma JoinRow(spans: seq<(nat, nat)>, lo: nat, hi: nat, starts: seq<nat>, k: nat, rowBytes: nat, granule: nat, limit: nat)
    requires granule > 0 && Open(spans, lo, hi, starts, k, rowBytes, granule, limit) && k < |starts|
    requires starts[k - 1] <= starts[k] <= limit <= USIZE_MAX && Lo(starts[k], granule) <= hi
    ensures hi <= Hi(starts[k], rowBytes, granule, limit)
    ensures Open(spans, lo, Hi(starts[k], rowBytes, granule, limit), starts, k + 1, rowBytes, granule, limit)
  {
    HiMonotone(starts[k - 1], starts[k], rowBytes, granule, limit);
    LoMonotone(starts[k - 1], starts[k], granule);
    var lo', hi' := Lo(starts[k], granule), Hi(starts[k], rowBytes, granule, limit);
    hide Lo, Hi;
    var all := spans + [(lo, hi' - lo)];
    forall b ensures InSpans(all, b) <==> Covered(starts, k + 1, rowBytes, granule, limit, b) {
      InSpansMore(spans, (lo, hi' - lo), b);
      InSpansMore(spans, (lo, hi - lo), b);
      CoveredMore(starts, k, rowBytes, granule, limit, b);
    }
    hide InSpans, Covered;
    GappedExtend(spans, lo, hi - lo, hi' - lo);
  }

  lemma GappedExtend(spans: seq<(nat, nat)>, lo: nat, len: nat, len': nat)
    requires Gapped(spans + [(lo, len)])
    ensures Gapped(spans + [(lo, len')])
  {
    var a, b := spans + [(lo, len)], spans + [(lo, len')];
    forall i, j | 0 <= i < j < |b| ensures b[i].0 + b[i].1 < b[j].0 {
      assert a[i].0 + a[i].1 < a[j].0;
    }
  }

  /** The next row leaves a gap: the run is closed and another opened. */
  lemma NextRow(spans: seq<(nat, nat)>, lo: nat, hi: nat, starts: seq<nat>, k: nat, rowBytes: nat, granule: nat, limit: nat)
    requires granule > 0 && Open(spans, lo, hi, starts, k, rowBytes, granule, limit) && k < |starts|
    requires starts[k] <= limit <= USIZE_MAX && Lo(starts[k], granule) > hi
    ensures Open(spans + [(lo, hi - lo)], Lo(starts[k], granule), Hi(starts[k], rowBytes, granule, limit),
                 starts, k + 1, rowBytes, granule, limit)
  {
    LoHi(starts[k], rowBytes, granule, limit);
    var lo', hi' := Lo(starts[k], granule), Hi(starts[k], rowBytes, granule, limit);
    var closed := spans + [(lo, hi - lo)];
    hide Lo, Hi;
    var all := closed + [(lo', hi' - lo')];
    forall b ensures InSpans(all, b) <==> Covered(starts, k + 1, rowBytes, granule, limit, b) {
      InSpansMore(closed, (lo', hi' - lo'), b);
      CoveredMore(starts, k, rowBytes, granule, limit, b);
    }
    hide InSpans, Covered;
    GappedSnoc(spans, lo, hi - lo, (lo', hi' - lo'));
  }

  lemma GappedSnoc(spans: seq<(nat, nat)>, lo: nat, len: nat, next: (nat, nat))
    requires Gapped(spans + [(lo, len)]) && lo + len < next.0
    ensures Gapped(spans + [(lo, len)] + [next])
  {
    var a := spans + [(lo, len)];
    forall i, j | 0 <= i < j < |a + [next]| ensures (a + [next])[i].0 + (a + [next])[i].1 < (a + [next])[j].0 {
      if j == |a| && i < |a| - 1 {
        assert a[i].0 + a[i].1 < a[|a| - 1].0;
      } else if j < |a| {
        assert a[i].0 + a[i].1 < a[j].0;
      }
    }
  }

  /**
   * Cover each row with whole granules, merging spans that touch. Starts beyond the limit have no
   * answer: their span would end before it begins.
   */
  method CoalesceSpans(starts: seq<nat>, rowBytes: nat, granule: nat, limit: nat) returns (spans: seq<(nat, nat)>)
    requires granule > 0 && limit <= USIZE_MAX && forall i :: 0 <= i < |starts| ==> starts[i] <= limit
    ensures Gapped(spans)
    ensures forall b: nat :: InSpans(spans, b) <==>
      b < limit && exists i :: 0 <= i < |starts| && Touches(starts[i], rowBytes, granule, b)
  {
    hide Lo, Hi, InSpans, Covered, Gapped, Open, Touches;
    var sorted := SortDedup(starts);
    spans := [];
    if sorted == [] {
      NoRows(starts, rowBytes, granule, limit);
      Tight(spans, starts, rowBytes, granule, limit);
      return;
    }
    assert forall i :: 0 <= i < |sorted| ==> sorted[i] in starts;
    var lo: nat, hi: nat := Lo(sorted[0], granule), Hi(sorted[0], rowBytes, granule, limit);
    FirstRow(sorted, rowBytes, granule, limit);
    for k := 1 to |sorted|
      invariant Open(spans, lo, hi, sorted, k, rowBytes, granule, limit)
    {
      if Lo(sorted[k], granule) <= hi {
        JoinRow(spans, lo, hi, sorted, k, rowBytes, granule, limit);
        hi := if Hi(sorted[k], rowBytes, granule, limit) > hi then Hi(sorted[k], rowBytes, granule, limit) else hi;
      } else {
        NextRow(spans, lo, hi, sorted, k, rowBytes, granule, limit);
        CloseRun(spans, lo, hi, sorted, k, rowBytes, granule, limit);
        spans := spans + [(lo, hi - lo)];
        lo, hi := Lo(sorted[k], granule), Hi(sorted[k], rowBytes, granule, limit);
      }
    }
    CloseRun(spans, lo, hi, sorted, |sorted|, rowBytes, granule, limit);
    spans := spans + [(lo, hi - lo)];
    forall b ensures InSpans(spans, b) <==> Covered(starts, |starts|, rowBytes, granule, limit, b) {
      SameRows(starts, sorted, rowBytes, granule, limit, b);
    }
    Tight(spans, starts, rowBytes, granule, limit);
  }

  lemma Tight(spans: seq<(nat, nat)>, starts: seq<nat>, rowBytes: nat, granule: nat, limit: nat)
    requires granule > 0 && limit <= USIZE_MAX
    requires forall b :: InSpans(spans, b) <==> Covered(starts, |starts|, rowBytes, granule, limit, b)
    ensures forall b: nat :: InSpans(spans, b) <==>
      b < limit && exists i :: 0 <= i < |starts| && Touches(starts[i], rowBytes, granule, b)
  {
    hide InSpans, Covered, Touches;
    forall b: nat
      ensures InSpans(spans, b) <==> b < limit && exists i :: 0 <= i < |starts| && Touches(starts[i], rowBytes, granule, b)
    {
      CoverIsTight(starts, rowBytes, granule, limit, b);
    }
  }

  lemma CloseRun(spans: seq<(nat, nat)>, lo: nat, hi: nat, starts: seq<nat>, k: nat, rowBytes: nat, granule: nat, limit: nat)
    requires granule > 0 && Open(spans, lo, hi, starts, k, rowBytes, granule, limit)
    ensures lo <= hi && 0 < k <= |starts| && Gapped(spans + [(lo, hi - lo)])
    ensures forall b :: InSpans(spans + [(lo, hi - lo)], b) <==> Covered(starts, k, rowBytes, granule, limit, b)
  {
    hide Lo, Hi, InSpans, Covered, Gapped;
  }

  lemma NoRows(starts: seq<nat>, rowBytes: nat, granule: nat, limit: nat)
    requires granule > 0 && forall x :: x in [] <==> x in starts
    ensures Gapped([]) && forall b :: InSpans([], b) <==> Covered(starts, |starts|, rowBytes, granule, limit, b)
  {
    forall b ensures InSpans([], b) <==> Covered(starts, |starts|, rowBytes, granule, limit, b) {
      SameRows(starts, [], rowBytes, granule, limit, b);
    }
  }

  lemma SameRows(starts: seq<nat>, sorted: seq<nat>, rowBytes: nat, granule: nat, limit: nat, b: nat)
    requires granule > 0 && forall x :: x in sorted <==> x in starts
    ensures Covered(starts, |starts|, rowBytes, granule, limit, b) <==> Covered(sorted, |sorted|, rowBytes, granule, limit, b)
  {
    hide Lo, Hi;
    if Covered(starts, |starts|, rowBytes, granule, limit, b) {
      var i :| 0 <= i < |starts| && Lo(starts[i], granule) <= b < Hi(starts[i], rowBytes, granule, limit);
      assert starts[i] in sorted;
      var j :| 0 <= j < |sorted| && sorted[j] == starts[i];
    }
    if Covered(sorted, |sorted|, rowBytes, granule, limit, b) {
      var i :| 0 <= i < |sorted| && Lo(sorted[i], granule) <= b < Hi(sorted[i], rowBytes, granule, limit);
      assert sorted[i] in starts;
      var j :| 0 <= j < |starts| && starts[j] == sorted[i];
    }
  }

  lemma LessMul(x: nat, y: nat, g: nat)
    requires x * g < y * g
    ensures x < y
  {
    MulMonotone(y, x, g);
  }

  /** The multiples on either side of a byte, and of what is rounded up. */
  lemma Rounded(e: nat, g: nat, b: nat, q: nat, c: nat)
    requires g > 0 && q == b / g && c == (e + g - 1) / g
    ensures q * g <= b < (q + 1) * g && e <= c * g < e + g
  {
    assert q * g <= b < q * g + g == (q + 1) * g;
    assert c * g <= e + g - 1 < c * g + g;
  }

  /** A byte is below a multiple rounded up exactly when its granule begins below what was rounded. */
  lemma UpIff(e: nat, g: nat, b: nat)
    requires g > 0
    ensures b < (e + g - 1) / g * g <==> b / g * g < e
  {
    UpAt(e, g, b, b / g, (e + g - 1) / g);
  }

  lemma UpAt(e: nat, g: nat, b: nat, q: nat, c: nat)
    requires g > 0 && q == b / g && c == (e + g - 1) / g
    ensures b < c * g <==> q * g < e
  {
    Rounded(e, g, b, q, c);
    Between(q, c, e, g, b);
  }

  lemma Between(q: nat, c: nat, e: nat, g: nat, b: nat)
    requires q * g <= b < (q + 1) * g && e <= c * g < e + g
    ensures b < c * g <==> q * g < e
  {
    if q * g < e {
      LessMul(q, c, g);
      MulMonotone(q + 1, c, g);
    }
    if b < c * g {
      LessMul(q, c, g);
      assert (q + 1) * g == q * g + g;
      MulMonotone(q + 1, c, g);
    }
  }

  lemma LowIff(s: nat, g: nat, b: nat)
    requires g > 0
    ensures Lo(s, g) <= b <==> s / g <= b / g
  {
    assert Lo(s, g) == s / g * g && b / g * g <= b;
    DivUnique(s / g, 0, g);
    MulMonotone(s / g, b / g, g);
    if Lo(s, g) <= b {
      DivMonotone(Lo(s, g), b, g);
    }
  }

  /** A row's rounded range is the bytes below the limit whose granule it touches. */
  lemma RowIff(s: nat, rowBytes: nat, granule: nat, limit: nat, b: nat)
    requires granule > 0 && limit <= USIZE_MAX
    ensures Lo(s, granule) <= b < Hi(s, rowBytes, granule, limit) <==> b < limit && Touches(s, rowBytes, granule, b)
  {
    LowIff(s, granule, b);
    var e := if s + rowBytes > USIZE_MAX then USIZE_MAX else s + rowBytes;
    UpIff(e, granule, b);
    assert b / granule * granule <= b;
    hide Lo;
  }

  /** A byte is covered exactly when it is below the limit and shares a granule with some row. */
  lemma CoverIsTight(starts: seq<nat>, rowBytes: nat, granule: nat, limit: nat, b: nat)
    requires granule > 0 && limit <= USIZE_MAX
    ensures Covered(starts, |starts|, rowBytes, granule, limit, b) <==>
      b < limit && exists i :: 0 <= i < |starts| && Touches(starts[i], rowBytes, granule, b)
  {
    hide Lo, Hi, Touches;
    forall i | 0 <= i < |starts|
      ensures Lo(starts[i], granule) <= b < Hi(starts[i], rowBytes, granule, limit) <==> b < limit && Touches(starts[i], rowBytes, granule, b)
    {
      RowIff(starts[i], rowBytes, granule, limit, b);
    }
  }
}
