/**
 * The dirty bitmap. Words are 64 bits; marking ors a mask into one word, draining and clearing swap
 * a word with zero. Each of these is one atomic step, and any number of them interleave.
 */
module Dirty {
  import opened Sorted

  const BITS: nat := 64

  type Word = w: seq<bool> | |w| == BITS witness seq(BITS, _ => false)

  function Zero(): (w: Word)
    ensures forall i :: 0 <= i < BITS ==> !w[i]
  {
    seq(BITS, _ => false)
  }

  function Or(a: Word, b: Word): (r: Word)
    ensures forall i :: 0 <= i < BITS ==> (r[i] <==> a[i] || b[i])
  {
    seq(BITS, i requires 0 <= i < BITS => a[i] || b[i])
  }

  predicate Bit(words: seq<Word>, v: nat) {
    v / BITS < |words| && words[v / BITS][v % BITS]
  }

  class Bitmap {
    const numVertices: nat
    var words: seq<Word>

    ghost predicate Valid()
      reads this
    {
      numVertices <= BITS * |words| && |words| > 0
    }

    constructor (numVertices: nat)
      ensures Valid() && this.numVertices == numVertices && forall v :: !Bit(words, v)
    {
      this.numVertices := numVertices;
      var n := (numVertices + BITS - 1) / BITS;
      words := seq(if n == 0 then 1 else n, _ => Zero());
    }

    /** One atomic or. */
    method FetchOr(word: nat, mask: Word)
      requires Valid() && word < |words|
      modifies this`words
      ensures Valid() && |words| == |old(words)|
      ensures forall v: nat :: Bit(words, v) <==> Bit(old(words), v) || (v / BITS == word && mask[v % BITS])
    {
      words := words[word := Or(words[word], mask)];
    }

    /** Mark an ascending slice; vertices of one word share one step, and out-of-range ids are skipped. */
    method MarkSorted(sorted: seq<nat>)
      requires Valid() && Ascending(sorted)
      modifies this`words
      ensures Valid() && |words| == |old(words)|
      ensures forall v: nat :: Bit(words, v) <==> Bit(old(words), v) || (v in sorted && v < numVertices)
    {
      var i := 0;
      assert sorted[..0] == [];
      while i < |sorted|
        invariant 0 <= i <= |sorted| && Valid() && |words| == |old(words)|
        invariant forall v: nat :: Bit(words, v) <==> Bit(old(words), v) || (v in sorted[..i] && v < numVertices)
        decreases |sorted| - i
      {
        if sorted[i] >= numVertices {
          RestOut(sorted, i, numVertices);
          return;
        }
        var word := sorted[i] / BITS;
        ghost var first, before := i, words;
        var mask := Zero();
        while i < |sorted| && sorted[i] < numVertices && sorted[i] / BITS == word
          invariant first <= i <= |sorted| && words == before
          invariant forall k :: first <= k < i ==> sorted[k] < numVertices && sorted[k] / BITS == word
          invariant forall v: nat :: v / BITS == word ==> (mask[v % BITS] <==> v in sorted[first..i])
          decreases |sorted| - i
        {
          SameWord(word, sorted[i]);
          assert sorted[first..i + 1] == sorted[first..i] + [sorted[i]];
          mask := mask[sorted[i] % BITS := true];
          i := i + 1;
        }
        FetchOr(word, mask);
        assert sorted[..i] == sorted[..first] + sorted[first..i];
        forall v: nat | v in sorted[first..i] ensures v / BITS == word && v < numVertices { }
      }
      assert sorted[..i] == sorted;
    }

    /** Take every mark out, one word at a time, lowest bit first. */
    method DrainDirty() returns (ids: seq<nat>)
      requires Valid()
      modifies this`words
      ensures Valid() && |words| == |old(words)| && forall v: nat :: !Bit(words, v)
      ensures Ascending(ids) && forall v: nat :: v in ids <==> Bit(old(words), v) && v < numVertices
    {
      ids := [];
      for i := 0 to |words|
        invariant Valid() && |words| == |old(words)|
        invariant forall j :: 0 <= j < |words| ==> words[j] == if j < i then Zero() else old(words[j])
        invariant Ascending(ids) && (forall k :: 0 <= k < |ids| ==> ids[k] < BITS * i)
        invariant forall v: nat :: v in ids <==> Bit(old(words), v) && v < numVertices && v / BITS < i
      {
        var bits := words[i];
        words := words[i := Zero()];
        ids := DrainWord(bits, i, ids, numVertices);
      }
      forall v: nat ensures !Bit(words, v) { }
    }
  }

  lemma SameWord(word: nat, u: nat)
    requires u / BITS == word
    ensures forall v: nat :: v / BITS == word && v % BITS == u % BITS ==> v == u
  {
  }

  lemma RestOut(sorted: seq<nat>, i: nat, n: nat)
    requires Ascending(sorted) && i < |sorted| && sorted[i] >= n
    ensures forall v :: v in sorted && v < n ==> v in sorted[..i]
  {
    forall v | v in sorted && v < n ensures v in sorted[..i] {
      var k :| 0 <= k < |sorted| && sorted[k] == v;
      assert k < i;
      assert sorted[..i][k] == v;
    }
  }

  /** Append the in-range bits of a word, lowest first. */
  method DrainWord(bits: Word, i: nat, ids: seq<nat>, n: nat) returns (r: seq<nat>)
    requires Ascending(ids) && forall k :: 0 <= k < |ids| ==> ids[k] < BITS * i
    ensures Ascending(r) && forall k :: 0 <= k < |r| ==> r[k] < BITS * (i + 1)
    ensures forall v: nat :: v in r <==> v in ids || (v / BITS == i && bits[v % BITS] && v < n)
  {
    r := ids;
    for b := 0 to BITS
      invariant Ascending(r) && forall k :: 0 <= k < |r| ==> r[k] < BITS * i + b
      invariant forall v: nat :: v in r <==> v in ids || (BITS * i <= v < BITS * i + b && bits[v - BITS * i] && v < n)
    {
      if bits[b] && BITS * i + b < n {
        r := r + [BITS * i + b];
      }
    }
    forall v: nat ensures v in r <==> v in ids || (v / BITS == i && bits[v % BITS] && v < n) {
      Place(v, i);
    }
  }

  lemma Place(v: nat, i: nat)
    ensures v / BITS == i <==> BITS * i <= v < BITS * i + BITS
    ensures v / BITS == i ==> v % BITS == v - BITS * i
  {
  }

  // -- Interleaved steps ------------------------------------------------------------------

  datatype Step = Mark(word: nat, mask: Word) | Drain(word: nat) | Clear(word: nat)

  /** The words, and every vertex that was raised from zero, returned by a drain, or dropped by a clear. */
  datatype State = State(words: seq<Word>, raised: multiset<nat>, drained: multiset<nat>, cleared: multiset<nat>)

  /** Vertices of one word whose bit is set in `w` and not in `w0`. */
  ghost function Fresh(word: nat, w: Word, w0: Word): multiset<nat> {
    multiset(set i: nat | i < BITS && w[i] && !w0[i] :: BITS * word + i)
  }

  lemma FreshAt(word: nat, w: Word, w0: Word, v: nat)
    ensures Fresh(word, w, w0)[v] == if v / BITS == word && w[v % BITS] && !w0[v % BITS] then 1 else 0
  {
    Place(v, word);
    var s := set i: nat | i < BITS && w[i] && !w0[i] :: BITS * word + i;
    if v / BITS == word {
      assert v == BITS * word + v % BITS;
    }
    assert v in s <==> v / BITS == word && w[v % BITS] && !w0[v % BITS];
  }

  lemma StepAt(s: State, step: Step, v: nat)
    requires step.word < |s.words|
    ensures var s' := Apply(s, step);
      var had, mine := Bit(s.words, v), v / BITS == step.word;
      && Bit(s'.words, v) == (if !mine then had else step.Mark? && (had || step.mask[v % BITS]))
      && s'.raised[v] == s.raised[v] + (if mine && step.Mark? && step.mask[v % BITS] && !had then 1 else 0)
      && s'.drained[v] == s.drained[v] + (if mine && step.Drain? && had then 1 else 0)
      && s'.cleared[v] == s.cleared[v] + (if mine && step.Clear? && had then 1 else 0)
  {
    hide Fresh;
    var w := s.words[step.word];
    match step
    case Mark(word, mask) => FreshAt(word, mask, w, v);
    case Drain(word) => FreshAt(word, w, Zero(), v);
    case Clear(word) => FreshAt(word, w, Zero(), v);
  }

  ghost function Apply(s: State, step: Step): State
    requires step.word < |s.words|
  {
    match step
    case Mark(word, mask) =>
      State(s.words[word := Or(s.words[word], mask)], s.raised + Fresh(word, mask, s.words[word]), s.drained, s.cleared)
    case Drain(word) =>
      State(s.words[word := Zero()], s.raised, s.drained + Fresh(word, s.words[word], Zero()), s.cleared)
    case Clear(word) =>
      State(s.words[word := Zero()], s.raised, s.drained, s.cleared + Fresh(word, s.words[word], Zero()))
  }

  ghost predicate Run(states: seq<State>, steps: seq<Step>) {
    && |states| == |steps| + 1
    && (forall v: nat :: !Bit(states[0].words, v))
    && states[0].raised == states[0].drained == states[0].cleared == multiset{}
    && forall i :: 0 <= i < |steps| ==> steps[i].word < |states[i].words| && states[i + 1] == Apply(states[i], steps[i])
  }

  /** Each raised mark is returned by a drain, dropped by a clear, or still set: one of them, once. */
  lemma {:induction false} MarksConserved(states: seq<State>, steps: seq<Step>, i: nat, v: nat)
    requires Run(states, steps) && i < |states|
    ensures states[i].raised[v] == states[i].drained[v] + states[i].cleared[v] + (if Bit(states[i].words, v) then 1 else 0)
  {
    if i > 0 {
      hide Apply, Bit;
      MarksConserved(states, steps, i - 1, v);
      assert states[i] == Apply(states[i - 1], steps[i - 1]);
      StepAt(states[i - 1], steps[i - 1], v);
    }
  }

  /** A mark stays set until the first later swap of its word, which takes it. */
  lemma {:induction false} MarkFate(states: seq<State>, steps: seq<Step>, i: nat, j: nat, v: nat)
    requires Run(states, steps) && i < j < |states|
    requires steps[i].Mark? && steps[i].word == v / BITS && steps[i].mask[v % BITS]
    requires forall k :: i < k < j ==> steps[k].Mark? || steps[k].word != v / BITS
    ensures Bit(states[j].words, v)
    ensures j < |steps| && steps[j] == Drain(v / BITS) ==> states[j + 1].drained[v] == states[j].drained[v] + 1
  {
    hide Apply, Bit;
    assert states[j] == Apply(states[j - 1], steps[j - 1]);
    StepAt(states[j - 1], steps[j - 1], v);
    if j < |steps| {
      StepAt(states[j], steps[j], v);
    }
    if j > i + 1 {
      MarkFate(states, steps, i, j - 1, v);
    }
  }
}
