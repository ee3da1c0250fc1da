/**
 * One slot of the feature table: a seqlock that any number of writers and readers race on.
 *
 * Writers take the head odd with a compare-and-swap, store the payload word by word, then the tail,
 * then the head. A writer that panics inside the window poisons the slot back to version zero. The
 * local reader re-loads the head after its copy. The remote reader cannot, and takes two snapshots
 * instead, each reading every location once in any order. Readers write nothing, so one of each
 * stands for any number.
 */
module Seqlock {
  import opened Options

  datatype Writer =
    | Idle
    | Saw(prev: nat, payload: seq<nat>)
    | Inside(prev: nat, payload: seq<nat>, k: nat)
    | Tailed(prev: nat, payload: seq<nat>)
    | Poisoning(prev: nat)

  /** `Away` is before a read or between two tries, `Unwritten` its answer that there is no row. */
  datatype Local =
    | Away
    | Unwritten
    /** `era` is how many poisonings there had been when the read began. */
    | Copying(h1: nat, got: seq<nat>, era: nat)
    | Checking(h1: nat, got: seq<nat>, tail: nat, era: nat)
    | Returned(got: seq<nat>, era: nat)

  datatype Snap = Snap(head: Option<nat>, tail: Option<nat>, words: map<nat, nat>)

  /** `base` counts the writes that had ended when the pair began, `start` the version and words then. */
  datatype Remote = Remote(first: Snap, second: Snap, base: nat, start: nat, words: seq<nat>)

  datatype State = State(
    head: nat,
    tail: nat,
    words: seq<nat>,
    writers: map<nat, Writer>,
    /** The writer inside the window, writes begun, poisonings, and payloads by version since the last one. */
    owner: Option<nat>,
    begun: nat,
    poisons: nat,
    published: map<nat, seq<nat>>,
    completed: set<seq<nat>>,
    local: Local,
    remote: Remote
  )

  datatype Loc = Head | Tail | Word(k: nat)

  datatype Step =
    | LoadHead(w: nat, payload: seq<nat>)
    | Cas(w: nat, ok: bool)
    | StoreWord(w: nat)
    | StoreTail(w: nat)
    | StoreHead(w: nat)
    | Panic(w: nat)
    | PoisonHead(w: nat)
    | ReadHead
    | CopyWord
    | ReadTail
    | ReadHeadAgain
    | BeginPair
    | ReadRemote(loc: Loc)

  function At(s: State, w: nat): Writer {
    if w in s.writers then s.writers[w] else Idle
  }

  predicate Complete(snap: Snap, n: nat) {
    snap.head.Some? && snap.tail.Some? && forall k :: 0 <= k < n ==> k in snap.words
  }

  predicate Unread(snap: Snap, loc: Loc, n: nat) {
    match loc
    case Head => snap.head.None?
    case Tail => snap.tail.None?
    case Word(k) => k < n && k !in snap.words
  }

  predicate Enabled(s: State, step: Step) {
    match step
    case LoadHead(w, payload) => (At(s, w).Idle? || At(s, w).Saw?) && |payload| == |s.words|
                                 && (At(s, w).Saw? ==> payload == At(s, w).payload)
    case Cas(w, ok) => At(s, w).Saw? && At(s, w).prev % 2 == 0 && (ok ==> s.head == At(s, w).prev)
    case StoreWord(w) => At(s, w).Inside? && At(s, w).k < |s.words| && |At(s, w).payload| == |s.words|
    case StoreTail(w) => At(s, w).Inside? && At(s, w).k == |s.words|
    case StoreHead(w) => At(s, w).Tailed?
    case Panic(w) => At(s, w).Inside? || At(s, w).Tailed?
    case PoisonHead(w) => At(s, w).Poisoning?
    case ReadHead => s.local.Away? || s.local.Unwritten? || s.local.Returned?
    case CopyWord => s.local.Copying? && |s.local.got| < |s.words|
    case ReadTail => s.local.Copying? && |s.local.got| == |s.words|
    case ReadHeadAgain => s.local.Checking?
    case BeginPair => true
    case ReadRemote(loc) =>
      if Complete(s.remote.first, |s.words|) then Unread(s.remote.second, loc, |s.words|)
      else Unread(s.remote.first, loc, |s.words|)
  }

  function Read(s: State, snap: Snap, loc: Loc): Snap
    requires loc.Word? ==> loc.k < |s.words|
  {
    match loc
    case Head => snap.(head := Some(s.head))
    case Tail => snap.(tail := Some(s.tail))
    case Word(k) => snap.(words := snap.words[k := s.words[k]])
  }

  const NOTHING: Snap := Snap(None, None, map[])

  function Apply(s: State, step: Step): State
    requires Enabled(s, step)
  {
    match step
    case LoadHead(w, payload) => s.(writers := s.writers[w := Saw(s.head, payload)])
    case Cas(w, ok) =>
      var l := At(s, w);
      if !ok then s.(writers := s.writers[w := Saw(s.head, l.payload)])
      else s.(head := s.head + 1, writers := s.writers[w := Inside(l.prev, l.payload, 0)], owner := Some(w), begun := s.begun + 1)
    case StoreWord(w) =>
      var l := At(s, w);
      s.(words := s.words[l.k := l.payload[l.k]], writers := s.writers[w := Inside(l.prev, l.payload, l.k + 1)])
    case StoreTail(w) =>
      var l := At(s, w);
      s.(tail := l.prev + 2, writers := s.writers[w := Tailed(l.prev, l.payload)])
    case StoreHead(w) =>
      var l := At(s, w);
      s.(head := l.prev + 2, writers := s.writers[w := Idle], owner := None,
         published := s.published[l.prev + 2 := l.payload], completed := s.completed + {l.payload})
    case Panic(w) => s.(tail := 0, writers := s.writers[w := Poisoning(At(s, w).prev)])
    case PoisonHead(w) =>
      s.(head := 0, writers := s.writers[w := Idle], owner := None, poisons := s.poisons + 1, published := map[])
    case ReadHead =>
      // An odd version means try again.
      if s.head == 0 then s.(local := Unwritten) else if s.head % 2 == 1 then s.(local := Away) else s.(local := Copying(s.head, [], s.poisons))
    case CopyWord => s.(local := Copying(s.local.h1, s.local.got + [s.words[|s.local.got|]], s.local.era))
    case ReadTail => s.(local := Checking(s.local.h1, s.local.got, s.tail, s.local.era))
    case ReadHeadAgain =>
      if s.local.h1 == s.local.tail && s.local.h1 == s.head then s.(local := Returned(s.local.got, s.local.era))
      else s.(local := Away)
    case BeginPair =>
      s.(remote := Remote(NOTHING, NOTHING, if s.owner.Some? && s.begun > 0 then s.begun - 1 else s.begun,
                          s.head - s.head % 2, s.words))
    case ReadRemote(loc) =>
      if Complete(s.remote.first, |s.words|) then s.(remote := s.remote.(second := Read(s, s.remote.second, loc)))
      else s.(remote := s.remote.(first := Read(s, s.remote.first, loc)))
  }

  /** The remote reader's test of its two snapshots. */
  predicate Accepts(r: Remote, n: nat) {
    && Complete(r.first, n) && Complete(r.second, n)
    && r.first.head == r.first.tail == r.second.head == r.second.tail
    && r.first.head.value % 2 == 0 && r.first.head.value != 0
    && forall k :: 0 <= k < n ==> r.first.words[k] == r.second.words[k]
  }

  function Row(snap: Snap, n: nat): (row: seq<nat>)
    requires Complete(snap, n)
    ensures |row| == n && forall k :: 0 <= k < n ==> row[k] == snap.words[k]
  {
    seq(n, k requires 0 <= k < n => snap.words[k])
  }

  // -- The invariant ----------------------------------------------------------------------

  /** An even version that is not zero is complete; an odd one has exactly one writer at work. */
  predicate SlotOk(s: State) {
    && (s.owner.None? ==> s.head % 2 == 0)
    && (s.owner.None? && s.head != 0 ==> s.head in s.published && s.published[s.head] == s.words)
    && (s.owner.Some? ==> s.begun > 0 && s.head % 2 == 1)
    && (forall v :: v in s.published ==> v <= s.head && |s.published[v]| == |s.words| && s.published[v] in s.completed)
  }

  predicate WriterOk(s: State, w: nat, l: Writer) {
    match l
    case Idle => s.owner != Some(w)
    case Saw(_, payload) => s.owner != Some(w) && |payload| == |s.words|
    case Inside(prev, payload, k) =>
      && s.owner == Some(w) && s.head == prev + 1 && |payload| == |s.words| && k <= |s.words|
      && forall i :: 0 <= i < k ==> s.words[i] == payload[i]
    case Tailed(prev, payload) => s.owner == Some(w) && s.head == prev + 1 && payload == s.words
    case Poisoning(prev) => s.owner == Some(w) && s.head == prev + 1
  }

  predicate WritersOk(s: State) {
    && (forall w :: w in s.writers ==> WriterOk(s, w, s.writers[w]))
    && (s.owner.Some? ==> s.owner.value in s.writers)
  }

  /** While the version is still the one it began with, a reader has copied that version's words. */
  predicate CopyOk(s: State, h1: nat, got: seq<nat>, era: nat) {
    && era <= s.poisons && h1 > 0 && h1 % 2 == 0 && |got| <= |s.words|
    && (era == s.poisons ==>
          h1 <= s.head && h1 in s.published && (s.head == h1 ==> got == s.words[..|got|]))
  }

  predicate LocalOk(s: State) {
    match s.local
    case Away => true
    case Unwritten => true
    case Copying(h1, got, era) => CopyOk(s, h1, got, era)
    case Checking(h1, got, _, era) => |got| == |s.words| && CopyOk(s, h1, got, era)
    case Returned(got, era) => era <= s.poisons && (era == s.poisons ==> got in s.completed)
  }

  predicate AllFrom(words: map<nat, nat>, row: seq<nat>) {
    forall k :: k in words ==> k < |row| && words[k] == row[k]
  }

  /** How the slot has moved since the pair began, if at most one write has overlapped it. */
  predicate OneWrite(s: State) {
    var r := s.remote;
    && r.base <= s.begun
    && (s.begun == r.base ==> s.owner.None? && s.head == r.start && s.words == r.words)
    && (s.begun == r.base + 1 ==>
          if s.owner.Some? then s.head == r.start + 1 else s.head == r.start + 2 || s.head == 0)
  }

  predicate PairOk(s: State) {
    var r := s.remote;
    && |r.words| == |s.words| && r.start % 2 == 0 && r.base <= s.begun
    && (s.begun <= r.base + 1 ==> OneWrite(s) && SnapsOk(s))
  }

  predicate HeadsOk(h: Option<nat>, start: nat) {
    h.Some? ==> h.value in {0, start, start + 1, start + 2}
  }

  predicate SnapsOk(s: State) {
    var r := s.remote;
    && HeadsOk(r.first.head, r.start) && HeadsOk(r.second.head, r.start)
    && (s.begun == r.base ==> AllFrom(r.first.words, r.words))
    && (r.second != NOTHING ==> Complete(r.first, |s.words|))
    && (r.first.head == Some(r.start + 2) ==>
          s.owner.None? && s.head == r.start + 2 && AllFrom(r.second.words, s.words))
    && (r.second.head == Some(r.start) && r.start != 0 ==> AllFrom(r.first.words, r.words) && r.words in s.completed)
  }

  predicate Inv(s: State) {
    SlotOk(s) && WritersOk(s) && LocalOk(s) && PairOk(s)
  }

  // -- Steps ------------------------------------------------------------------------------

  predicate WriterStep(step: Step) {
    step.LoadHead? || step.Cas? || step.StoreWord? || step.StoreTail? || step.StoreHead? || step.Panic? || step.PoisonHead?
  }

  lemma WriterSlot(s: State, step: Step)
    requires Inv(s) && WriterStep(step) && Enabled(s, step)
    ensures SlotOk(Apply(s, step)) && WriterOk(Apply(s, step), step.w, At(Apply(s, step), step.w))
    ensures Apply(s, step).owner.Some? ==> Apply(s, step).owner.value in Apply(s, step).writers
    ensures forall w :: w != step.w ==> At(Apply(s, step), w) == At(s, w)
  {
    hide LocalOk, PairOk;
    var w := step.w;
    assert w in s.writers ==> WriterOk(s, w, At(s, w));
  }

  /** Only the writer inside the window stores, so the others stand where they stood. */
  lemma OtherWriter(s: State, step: Step, w: nat)
    requires Inv(s) && WriterStep(step) && Enabled(s, step) && w != step.w && w in s.writers
    ensures WriterOk(Apply(s, step), w, s.writers[w])
  {
    hide LocalOk, PairOk;
    assert WriterOk(s, w, s.writers[w]);
    assert step.w in s.writers ==> WriterOk(s, step.w, At(s, step.w));
  }

  lemma WriterWriters(s: State, step: Step)
    requires Inv(s) && WriterStep(step) && Enabled(s, step)
    ensures SlotOk(Apply(s, step)) && WritersOk(Apply(s, step))
  {
    var s' := Apply(s, step);
    WriterSlot(s, step);
    hide Inv, WriterOk, SlotOk, Enabled;
    forall w | w in s'.writers ensures WriterOk(s', w, s'.writers[w]) {
      if w != step.w {
        assert At(s', w) == At(s, w);
        if w in s.writers {
          OtherWriter(s, step, w);
        }
      }
    }
  }

  lemma WriterLocal(s: State, step: Step)
    requires Inv(s) && WriterStep(step) && Enabled(s, step)
    ensures LocalOk(Apply(s, step))
  {
    hide PairOk;
    assert step.w in s.writers ==> WriterOk(s, step.w, At(s, step.w));
    var s' := Apply(s, step);
    assert s'.local == s.local && s'.poisons >= s.poisons;
    assert s'.poisons == s.poisons ==> s.head <= s'.head;
    assert s'.poisons == s.poisons ==> forall v :: v in s.published ==> v in s'.published;
    assert s'.head == s.head && s.head % 2 == 0 ==> s'.words == s.words;
  }

  lemma WriterPair(s: State, step: Step)
    requires Inv(s) && WriterStep(step) && Enabled(s, step)
    ensures PairOk(Apply(s, step))
  {
    hide LocalOk;
    assert step.w in s.writers ==> WriterOk(s, step.w, At(s, step.w));
  }

  lemma LocalStep(s: State, step: Step)
    requires Inv(s) && Enabled(s, step)
    requires step.ReadHead? || step.CopyWord? || step.ReadTail? || step.ReadHeadAgain?
    ensures Inv(Apply(s, step))
  {
    LocalReads(s, step);
    hide LocalOk, WriterOk, OneWrite, SnapsOk, SlotOk;
    var s' := Apply(s, step);
    SameSlot(s, s');
    SamePair(s, s');
  }

  lemma SameSlot(s: State, s': State)
    requires SlotOk(s) && WritersOk(s)
    requires s' == s.(local := s'.local, remote := s'.remote)
    ensures SlotOk(s') && WritersOk(s')
  {
    forall w | w in s'.writers ensures WriterOk(s', w, s'.writers[w]) { assert WriterOk(s, w, s.writers[w]); }
  }

  lemma SamePair(s: State, s': State)
    requires PairOk(s) && s' == s.(local := s'.local)
    ensures PairOk(s')
  {
  }

  lemma LocalReads(s: State, step: Step)
    requires Inv(s) && Enabled(s, step)
    requires step.ReadHead? || step.CopyWord? || step.ReadTail? || step.ReadHeadAgain?
    ensures LocalOk(Apply(s, step))
  {
    hide PairOk, WritersOk;
    match step
    case ReadHead => assert s.words[..0] == [];
    case CopyWord =>
      var n := |s.local.got|;
      assert s.words[..n + 1] == s.words[..n] + [s.words[n]];
    case ReadTail =>
    case ReadHeadAgain => assert s.words[..|s.words|] == s.words;
  }

  lemma BeginPairOk(s: State)
    requires Inv(s)
    ensures PairOk(Apply(s, BeginPair))
  {
    hide LocalOk, WritersOk;
  }

  lemma ReadFirst(s: State, loc: Loc)
    requires Inv(s) && Enabled(s, ReadRemote(loc)) && !Complete(s.remote.first, |s.words|)
    requires s.begun <= s.remote.base + 1
    ensures SnapsOk(Apply(s, ReadRemote(loc)))
  {
    hide LocalOk, WritersOk;
  }

  lemma ReadSecond(s: State, loc: Loc)
    requires Inv(s) && Enabled(s, ReadRemote(loc)) && Complete(s.remote.first, |s.words|)
    requires s.begun <= s.remote.base + 1
    ensures SnapsOk(Apply(s, ReadRemote(loc)))
  {
    hide LocalOk, WritersOk;
  }

  lemma RemoteStep(s: State, step: Step)
    requires Inv(s) && Enabled(s, step)
    requires step.BeginPair? || step.ReadRemote?
    ensures Inv(Apply(s, step))
  {
    var s' := Apply(s, step);
    if step.BeginPair? {
      BeginPairOk(s);
    } else if s.begun <= s.remote.base + 1 {
      if Complete(s.remote.first, |s.words|) { ReadSecond(s, step.loc); } else { ReadFirst(s, step.loc); }
    }
    assert PairOk(s') by { hide SnapsOk, Complete, SlotOk, LocalOk, WritersOk; }
    SameSlot(s, s');
    assert LocalOk(s');
    hide PairOk, SlotOk, WritersOk, LocalOk;
  }

  /** Every step keeps the invariant. */
  lemma Preserve(s: State, step: Step)
    requires Inv(s) && Enabled(s, step)
    ensures Inv(Apply(s, step))
  {
    hide Apply, Enabled, SlotOk, WritersOk, LocalOk, PairOk;
    if WriterStep(step) {
      WriterWriters(s, step);
      WriterLocal(s, step);
      WriterPair(s, step);
    } else if step.BeginPair? || step.ReadRemote? {
      RemoteStep(s, step);
    } else {
      LocalStep(s, step);
    }
  }

  // -- Runs -------------------------------------------------------------------------------

  /** A slot of `n` words that was never written. */
  predicate Init(s: State, n: nat) {
    && s.head == 0 && s.tail == 0 && |s.words| == n && s.writers == map[] && s.owner == None
    && s.begun == 0 && s.poisons == 0 && s.published == map[] && s.completed == {}
    && s.local == Away && s.remote == Remote(NOTHING, NOTHING, 0, 0, s.words)
  }

  /** The states of a run, one before and after every step. */
  ghost predicate Run(states: seq<State>, steps: seq<Step>, n: nat) {
    && |states| == |steps| + 1 && Init(states[0], n)
    && forall i :: 0 <= i < |steps| ==> Enabled(states[i], steps[i]) && states[i + 1] == Apply(states[i], steps[i])
  }

  lemma {:induction false} AlwaysInv(states: seq<State>, steps: seq<Step>, n: nat, i: nat)
    requires Run(states, steps, n) && i < |states|
    ensures Inv(states[i])
  {
    hide Inv, Apply, Enabled;
    if i == 0 {
      assert Inv(states[0]) by { InitOk(states[0], n); }
    } else {
      AlwaysInv(states, steps, n, i - 1);
      Preserve(states[i - 1], steps[i - 1]);
    }
  }

  lemma InitOk(s: State, n: nat)
    requires Init(s, n)
    ensures Inv(s)
  {
  }

  /** A payload counts as completed only once its writer has stored the final head. */
  lemma {:induction false} CompletedByWrite(states: seq<State>, steps: seq<Step>, n: nat, i: nat, payload: seq<nat>) returns (k: nat)
    requires Run(states, steps, n) && i < |states| && payload in states[i].completed
    ensures k < i && steps[k].StoreHead? && At(states[k], steps[k].w).Tailed? && At(states[k], steps[k].w).payload == payload
  {
    assert i > 0;
    assert Enabled(states[i - 1], steps[i - 1]) && states[i] == Apply(states[i - 1], steps[i - 1]);
    if payload in states[i - 1].completed {
      k := CompletedByWrite(states, steps, n, i - 1, payload);
    } else {
      k := i - 1;
    }
  }

  lemma ReturnedWhole(s: State)
    requires Inv(s) && s.local.Returned? && s.local.era == s.poisons
    ensures s.local.got in s.completed
  {
  }

  /**
   * A read that returns true hands back the whole payload of one completed write, whatever writers
   * raced with its copy, if no write was poisoned between its first step and its last.
   */
  lemma ReadNeverTorn(states: seq<State>, steps: seq<Step>, n: nat, i: nat) returns (k: nat)
    requires Run(states, steps, n) && i < |states|
    requires states[i].local.Returned? && states[i].local.era == states[i].poisons
    ensures k < i && steps[k].StoreHead? && At(states[k], steps[k].w).Tailed?
    ensures At(states[k], steps[k].w).payload == states[i].local.got
  {
    hide Inv, Apply, Enabled, Init;
    AlwaysInv(states, steps, n, i);
    ReturnedWhole(states[i]);
    k := CompletedByWrite(states, steps, n, i, states[i].local.got);
  }

  lemma LastCheck(s: State, step: Step)
    requires Inv(s) && Enabled(s, step) && Apply(s, step).local.Returned? && Apply(s, step).local.era == Apply(s, step).poisons
    ensures step.ReadHeadAgain? ==>
      && s.owner.None? && s.words == Apply(s, step).local.got
      && s.head in s.published && s.published[s.head] == s.words
    ensures !step.ReadHeadAgain? ==> s.local == Apply(s, step).local && s.local.era == s.poisons
  {
    hide WritersOk, PairOk;
    assert |s.words| == |s.words[..|s.words|]|;
  }

  lemma ReturnsCopy(s: State)
    requires Enabled(s, ReadHeadAgain) && Apply(s, ReadHeadAgain).local.Returned?
    ensures s.local.Checking? && s.local.got == Apply(s, ReadHeadAgain).local.got
  {
  }

  /**
   * The row a read returns was the slot's current one at a moment within the read: when the head was
   * loaded again, no writer was inside and the latest completed write was exactly this row. The reader has
   * taken no step since.
   */
  lemma {:induction false} ReadIsCurrent(states: seq<State>, steps: seq<Step>, n: nat, i: nat) returns (j: nat)
    requires Run(states, steps, n) && i < |states|
    requires states[i].local.Returned? && states[i].local.era == states[i].poisons
    ensures j < i && steps[j].ReadHeadAgain? && states[j].owner.None?
    ensures states[j].local.Checking? && states[j].local.got == states[j].words == states[i].local.got
    ensures states[j].head in states[j].published && states[j].published[states[j].head] == states[i].local.got
    ensures forall m :: j < m <= i ==> states[m].local == states[i].local
  {
    hide Inv, Apply, Enabled;
    assert i > 0 by { assert Init(states[0], n); }
    AlwaysInv(states, steps, n, i - 1);
    LastCheck(states[i - 1], steps[i - 1]);
    if steps[i - 1].ReadHeadAgain? {
      j := i - 1;
      ReturnsCopy(states[j]);
    } else {
      j := ReadIsCurrent(states, steps, n, i - 1);
    }
  }

  /** With at most one write over the pair, one of the two snapshots saw no write at all. */
  lemma AcceptedWhole(s: State)
    requires Inv(s) && Accepts(s.remote, |s.words|) && s.begun <= s.remote.base + 1
    ensures Row(s.remote.first, |s.words|) in s.completed
  {
    var r, n := s.remote, |s.words|;
    var row := Row(r.first, n);
    hide WritersOk, LocalOk;
    if r.first.head == Some(r.start) {
      assert row == r.words;
    } else {
      assert row == s.words;
    }
  }

  /**
   * The two-snapshot test of a remote reader is sound when at most one write overlaps the pair: an
   * accepted row is the whole payload of one completed write, in whatever order locations were read.
   */
  lemma PairNeverTorn(states: seq<State>, steps: seq<Step>, n: nat, i: nat) returns (k: nat)
    requires Run(states, steps, n) && i < |states| && |states[i].words| == n
    requires Accepts(states[i].remote, n) && states[i].begun <= states[i].remote.base + 1
    ensures k < i && steps[k].StoreHead? && At(states[k], steps[k].w).Tailed?
    ensures At(states[k], steps[k].w).payload == Row(states[i].remote.first, n)
  {
    hide Inv, Apply, Enabled, Init;
    AlwaysInv(states, steps, n, i);
    AcceptedWhole(states[i]);
    k := CompletedByWrite(states, steps, n, i, Row(states[i].remote.first, n));
  }

  // -- Progress -----------------------------------------------------------------------------

  /** These steps can be taken one after the other, with nothing between them. */
  ghost predicate Alone(s: State, steps: seq<Step>, s': State)
    decreases |steps|
  {
    if steps == [] then s' == s else Enabled(s, steps[0]) && Alone(Apply(s, steps[0]), steps[1..], s')
  }

  lemma {:induction false} AloneThen(s: State, xs: seq<Step>, m: State, ys: seq<Step>, s': State)
    requires Alone(s, xs, m) && Alone(m, ys, s')
    ensures Alone(s, xs + ys, s')
    decreases |xs|
  {
    hide Enabled, Apply;
    if xs == [] {
      assert xs + ys == ys;
    } else {
      assert (xs + ys)[1..] == xs[1..] + ys;
      AloneThen(Apply(s, xs[0]), xs[1..], m, ys, s');
    }
  }

  lemma AloneNext(s: State, xs: seq<Step>, m: State, step: Step)
    requires Alone(s, xs, m) && Enabled(m, step)
    ensures Alone(s, xs + [step], Apply(m, step))
  {
    hide Enabled, Apply;
    assert Alone(Apply(m, step), [step][1..], Apply(m, step));
    AloneThen(s, xs, m, [step], Apply(m, step));
  }

  /** Between writes the two versions agree; inside one, the tail is what its writer has made it. */
  predicate TailOk(s: State) {
    if s.owner.None? then s.tail == s.head
    else match At(s, s.owner.value)
      case Tailed(prev, _) => s.tail == prev + 2
      case Poisoning(_) => s.tail == 0
      case _ => true
  }

  lemma TailStep(s: State, step: Step)
    requires Inv(s) && TailOk(s) && Enabled(s, step)
    ensures TailOk(Apply(s, step))
  {
    hide SlotOk, LocalOk, PairOk;
    if WriterStep(step) {
      assert step.w in s.writers ==> WriterOk(s, step.w, s.writers[step.w]);
      assert s.owner.Some? ==> WriterOk(s, s.owner.value, s.writers[s.owner.value]);
    }
  }

  lemma {:induction false} AlwaysTail(states: seq<State>, steps: seq<Step>, n: nat, i: nat)
    requires Run(states, steps, n) && i < |states|
    ensures TailOk(states[i])
  {
    hide Inv, Enabled, Apply;
    if i > 0 {
      AlwaysTail(states, steps, n, i - 1);
      AlwaysInv(states, steps, n, i - 1);
      hide TailOk;
      TailStep(states[i - 1], steps[i - 1]);
    }
  }

  /** A read says that there is no row exactly when it finds the head zero. */
  lemma UnwrittenIff(s: State)
    requires Enabled(s, ReadHead)
    ensures Apply(s, ReadHead).local.Unwritten? <==> s.head == 0
    ensures s.head > 0 && s.head % 2 == 0 ==> Apply(s, ReadHead) == s.(local := Copying(s.head, [], s.poisons))
  {
  }

  lemma {:induction false} CopyAlone(s: State, h1: nat, k: nat, era: nat) returns (steps: seq<Step>)
    requires k <= |s.words| && s.local == Copying(h1, s.words[..k], era)
    ensures Alone(s, steps, s.(local := Copying(h1, s.words, era)))
    decreases |s.words| - k
  {
    if k == |s.words| {
      steps := [];
      assert s.words[..k] == s.words && s == s.(local := Copying(h1, s.words, era));
    } else {
      var m := Apply(s, CopyWord);
      assert s.words[..k] + [s.words[k]] == s.words[..k + 1];
      var more := CopyAlone(m, h1, k + 1, era);
      assert m.(local := Copying(h1, s.words, era)) == s.(local := Copying(h1, s.words, era));
      steps := [CopyWord] + more;
      assert steps[1..] == more;
    }
  }

  /**
   * In every run, where the last write is finished and the slot was written at all, a read that nothing comes
   * between returns the row of that write.
   */
  lemma ReadAlone(states: seq<State>, steps: seq<Step>, n: nat, i: nat) returns (read: seq<Step>, s': State)
    requires Run(states, steps, n) && i < |states|
    requires var s := states[i]; s.owner.None? && s.head != 0 && Enabled(s, ReadHead)
    ensures var s := states[i]; Alone(s, read, s') && s' == s.(local := Returned(s.words, s.poisons))
    ensures states[i].head in states[i].published && s'.local.got == states[i].published[states[i].head]
  {
    hide Run, Init, Alone;
    var s := states[i];
    AlwaysInv(states, steps, n, i);
    AlwaysTail(states, steps, n, i);
    assert Alone(s, [], s) by { NoSteps(s); }
    var a := Apply(s, ReadHead);
    AloneNext(s, [], s, ReadHead);
    assert a == s.(local := Copying(s.head, s.words[..0], s.poisons));
    var copy := CopyAlone(a, s.head, 0, s.poisons);
    var b := a.(local := Copying(s.head, s.words, s.poisons));
    AloneThen(s, [] + [ReadHead], a, copy, b);
    var c := Apply(b, ReadTail);
    AloneNext(s, [] + [ReadHead] + copy, b, ReadTail);
    s' := Apply(c, ReadHeadAgain);
    AloneNext(s, [] + [ReadHead] + copy + [ReadTail], c, ReadHeadAgain);
    read := [] + [ReadHead] + copy + [ReadTail] + [ReadHeadAgain];
    hide WritersOk, LocalOk, PairOk;
  }

  lemma NoSteps(s: State)
    ensures Alone(s, [], s)
  {
  }

  lemma {:induction false} StoreAlone(s: State, w: nat, prev: nat, payload: seq<nat>, k: nat) returns (steps: seq<Step>, s': State)
    requires |payload| == |s.words| && k <= |payload| && At(s, w) == Inside(prev, payload, k) && s.words[..k] == payload[..k]
    ensures Alone(s, steps, s') && s' == s.(words := payload, writers := s.writers[w := Inside(prev, payload, |payload|)])
    decreases |payload| - k
  {
    if k == |payload| {
      steps, s' := [], s;
      assert s.words[..k] == s.words && payload[..k] == payload;
      assert s.writers[w := Inside(prev, payload, k)] == s.writers;
    } else {
      var m := Apply(s, StoreWord(w));
      assert m.words[..k + 1] == m.words[..k] + [payload[k]] == payload[..k + 1];
      var more;
      more, s' := StoreAlone(m, w, prev, payload, k + 1);
      assert m.writers[w := Inside(prev, payload, |payload|)] == s.writers[w := Inside(prev, payload, |payload|)];
      steps := [StoreWord(w)] + more;
      assert steps[1..] == more;
    }
  }

  /** A write that nothing comes between, begun where no writer is inside, publishes its payload under the next even version. */
  lemma WriteAlone(s: State, w: nat, payload: seq<nat>) returns (steps: seq<Step>, s': State)
    requires Inv(s) && s.owner.None? && At(s, w).Idle? && |payload| == |s.words|
    ensures Alone(s, steps, s')
    ensures s'.head == s'.tail == s.head + 2 && s'.words == payload && s'.owner.None? && At(s', w).Idle?
    ensures payload in s'.completed && s'.head in s'.published && s'.published[s'.head] == payload
    ensures s'.local == s.local && s'.remote == s.remote && s'.poisons == s.poisons && s'.begun == s.begun + 1
  {
    hide Alone, WritersOk, LocalOk, PairOk;
    NoSteps(s);
    var a := Apply(s, LoadHead(w, payload));
    AloneNext(s, [], s, LoadHead(w, payload));
    var b := Apply(a, Cas(w, true));
    AloneNext(s, [] + [LoadHead(w, payload)], a, Cas(w, true));
    var stores, c := StoreAlone(b, w, s.head, payload, 0);
    AloneThen(s, [] + [LoadHead(w, payload)] + [Cas(w, true)], b, stores, c);
    steps := [] + [LoadHead(w, payload)] + [Cas(w, true)] + stores;
    var d := Apply(c, StoreTail(w));
    AloneNext(s, steps, c, StoreTail(w));
    s' := Apply(d, StoreHead(w));
    AloneNext(s, steps + [StoreTail(w)], d, StoreHead(w));
    steps := steps + [StoreTail(w)] + [StoreHead(w)];
  }

  /** The first `k` words, as a snapshot holds them. */
  function Words(row: seq<nat>, k: nat): map<nat, nat>
    requires k <= |row|
  {
    map j: nat | j < k :: row[j]
  }

  /** The pair with one of its snapshots replaced. */
  function With(r: Remote, second: bool, snap: Snap): Remote {
    if second then r.(second := snap) else r.(first := snap)
  }

  lemma {:induction false} WordsAlone(s: State, second: bool, r: Remote, k: nat) returns (steps: seq<Step>, s': State)
    requires k <= |s.words| && s.remote == With(r, second, Snap(None, None, Words(s.words, k)))
    requires second ==> Complete(r.first, |s.words|)
    ensures Alone(s, steps, s') && s' == s.(remote := With(r, second, Snap(None, None, Words(s.words, |s.words|))))
    decreases |s.words| - k
  {
    if k == |s.words| {
      steps, s' := [], s;
    } else {
      var m := Apply(s, ReadRemote(Word(k)));
      assert Words(s.words, k)[k := s.words[k]] == Words(s.words, k + 1);
      var more;
      more, s' := WordsAlone(m, second, r, k + 1);
      steps := [ReadRemote(Word(k))] + more;
      assert steps[1..] == more;
    }
  }

  /** One snapshot with nothing in between holds the slot as it is. */
  lemma SnapAlone(s: State, second: bool) returns (steps: seq<Step>, s': State)
    requires if second then Complete(s.remote.first, |s.words|) && s.remote.second == NOTHING else s.remote.first == NOTHING
    ensures Alone(s, steps, s')
    ensures s' == s.(remote := With(s.remote, second, Snap(Some(s.head), Some(s.tail), Words(s.words, |s.words|))))
  {
    assert Words(s.words, 0) == map[];
    assert s.remote == With(s.remote, second, Snap(None, None, Words(s.words, 0)));
    hide Alone;
    var a;
    steps, a := WordsAlone(s, second, s.remote, 0);
    var b := Apply(a, ReadRemote(Head));
    AloneNext(s, steps, a, ReadRemote(Head));
    s' := Apply(b, ReadRemote(Tail));
    AloneNext(s, steps + [ReadRemote(Head)], b, ReadRemote(Tail));
    steps := steps + [ReadRemote(Head)] + [ReadRemote(Tail)];
  }

  /** In every run, a pair of snapshots that nothing comes between, of a slot between writes, is accepted with its row. */
  lemma PairAlone(states: seq<State>, steps: seq<Step>, n: nat, i: nat) returns (read: seq<Step>, s': State)
    requires Run(states, steps, n) && i < |states|
    requires var s := states[i]; s.owner.None? && s.head != 0
    ensures var s := states[i]; Alone(s, read, s') && s' == s.(remote := s'.remote)
    ensures var s := states[i]; Accepts(s'.remote, |s.words|) && Row(s'.remote.first, |s.words|) == s.words
  {
    var s := states[i];
    AlwaysInv(states, steps, n, i);
    AlwaysTail(states, steps, n, i);
    hide Alone, Run, Init, WritersOk, LocalOk, PairOk;
    NoSteps(s);
    var a := Apply(s, BeginPair);
    AloneNext(s, [], s, BeginPair);
    var first, b := SnapAlone(a, false);
    AloneThen(s, [] + [BeginPair], a, first, b);
    var second, c := SnapAlone(b, true);
    AloneThen(s, [] + [BeginPair] + first, b, second, c);
    read, s' := [] + [BeginPair] + first + second, c;
  }

  // -- Where the guarantees end ---------------------------------------------------------------

  lemma Extend(states: seq<State>, steps: seq<Step>, n: nat, step: Step) returns (states': seq<State>, steps': seq<Step>, s: State)
    requires Run(states, steps, n) && Enabled(states[|steps|], step)
    ensures steps' == steps + [step] && states' == states + [Apply(states[|steps|], step)]
    ensures Run(states', steps', n) && s == Apply(states[|steps|], step) && states'[|steps'|] == s
  {
    hide Apply, Enabled, Init;
    s := Apply(states[|steps|], step);
    states', steps' := states + [s], steps + [step];
  }

  /** One whole write by `w`, with nothing in between. */
  lemma WholeWrite(states: seq<State>, steps: seq<Step>, w: nat, a: nat, b: nat)
      returns (states': seq<State>, steps': seq<Step>, s': State)
    requires Run(states, steps, 2)
    requires var s := states[|steps|]; s.owner == None && At(s, w).Idle? && s.head % 2 == 0 && |s.words| == 2
    ensures Run(states', steps', 2) && states'[|steps'|] == s'
    ensures var s := states[|steps|];
      s' == s.(head := s.head + 2, tail := s.head + 2, words := [a, b], writers := s.writers[w := Idle], begun := s.begun + 1,
               published := s.published[s.head + 2 := [a, b]], completed := s.completed + {[a, b]})
  {
    var s := states[|steps|];
    hide Run, Init;
    states', steps', s' := Extend(states, steps, 2, LoadHead(w, [a, b]));
    states', steps', s' := Extend(states', steps', 2, Cas(w, true));
    assert s' == s.(head := s.head + 1, writers := s.writers[w := Inside(s.head, [a, b], 0)], owner := Some(w), begun := s.begun + 1);
    states', steps', s' := Extend(states', steps', 2, StoreWord(w));
    states', steps', s' := Extend(states', steps', 2, StoreWord(w));
    assert s'.words == [a, b];
    states', steps', s' := Extend(states', steps', 2, StoreTail(w));
    states', steps', s' := Extend(states', steps', 2, StoreHead(w));
    assert s'.writers == s.writers[w := Idle];
  }

  function Fresh(): (s: State)
    ensures Init(s, 2)
  {
    State(0, 0, [0, 0], map[], None, 0, 0, map[], {}, Away, Remote(NOTHING, NOTHING, 0, 0, [0, 0]))
  }

  /** One write of [1, 2], then a reader that has copied the first word. */
  lemma HalfRead() returns (states: seq<State>, steps: seq<Step>, s: State)
    ensures Run(states, steps, 2) && states[|steps|] == s
    ensures s.head == 2 && s.words == [1, 2] && s.owner == None && s.writers == map[0 := Idle] && s.poisons == 0
    ensures s.completed == {[1, 2]} && s.published == map[2 := [1, 2]] && s.local == Copying(2, [1], 0)
  {
    states, steps, s := WholeWrite([Fresh()], [], 0, 1, 2);
    hide Run, Init;
    states, steps, s := Extend(states, steps, 2, ReadHead);
    states, steps, s := Extend(states, steps, 2, CopyWord);
  }

  /** The next writer panics while the reader is half-way. */
  lemma PoisonedHalf() returns (states: seq<State>, steps: seq<Step>, s: State)
    ensures Run(states, steps, 2) && states[|steps|] == s
    ensures s.head == 0 && s.words == [1, 2] && s.owner == None && s.writers == map[0 := Idle]
    ensures s.completed == {[1, 2]} && s.local == Copying(2, [1], 0)
  {
    states, steps, s := HalfRead();
    hide Run, Init;
    states, steps, s := Extend(states, steps, 2, LoadHead(0, [5, 6]));
    states, steps, s := Extend(states, steps, 2, Cas(0, true));
    states, steps, s := Extend(states, steps, 2, Panic(0));
    states, steps, s := Extend(states, steps, 2, PoisonHead(0));
  }

  /**
   * With a poisoning in the middle, a read can return a row that nobody wrote: versions start again
   * from zero, so a later write reaches the version the reader began with.
   */
  lemma PoisonTears() returns (states: seq<State>, steps: seq<Step>, s: State)
    ensures Run(states, steps, 2) && states[|steps|] == s
    ensures s.local.Returned? && s.local.got == [1, 4] && [1, 4] !in s.completed
  {
    states, steps, s := PoisonedHalf();
    states, steps, s := WholeWrite(states, steps, 1, 3, 4);
    hide Run, Init;
    assert s.completed == {[1, 2], [3, 4]} && s.words == [3, 4] && s.head == 2 && s.tail == 2;
    assert s.local == Copying(2, [1], 0);
    states, steps, s := Extend(states, steps, 2, CopyWord);
    states, steps, s := Extend(states, steps, 2, ReadTail);
    assert s.local == Checking(2, [1, 4], 2, 0);
    states, steps, s := Extend(states, steps, 2, ReadHeadAgain);
  }

  /** The write of [3, 4] is half done when the pair begins. */
  lemma HalfWrite() returns (states: seq<State>, steps: seq<Step>, s: State)
    ensures Run(states, steps, 2) && states[|steps|] == s
    ensures s.words == [3, 2] && s.head == 3 && s.owner == Some(1) && s.begun == 2 && s.completed == {[1, 2]}
    ensures s.writers == map[0 := Idle, 1 := Inside(2, [3, 4], 1)]
  {
    states, steps, s := WholeWrite([Fresh()], [], 0, 1, 2);
    hide Run, Init;
    states, steps, s := Extend(states, steps, 2, LoadHead(1, [3, 4]));
    states, steps, s := Extend(states, steps, 2, Cas(1, true));
    states, steps, s := Extend(states, steps, 2, StoreWord(1));
  }

  /** The first snapshot of a torn pair: its words straddle the write of [3, 4], its versions follow it. */
  lemma StraddlingSnapshot() returns (states: seq<State>, steps: seq<Step>, s: State)
    ensures Run(states, steps, 2) && states[|steps|] == s
    ensures s.head == 4 && s.tail == 4 && s.words == [3, 4] && s.owner == None && s.begun == 2
    ensures s.writers == map[0 := Idle, 1 := Idle] && s.completed == {[1, 2], [3, 4]}
    ensures s.remote == Remote(Snap(Some(4), Some(4), map[0 := 3, 1 := 2]), NOTHING, 1, 2, [3, 2])
  {
    states, steps, s := HalfWrite();
    hide Run, Init;
    states, steps, s := Extend(states, steps, 2, BeginPair);
    states, steps, s := Extend(states, steps, 2, ReadRemote(Word(0)));
    states, steps, s := Extend(states, steps, 2, ReadRemote(Word(1)));
    states, steps, s := FinishStraddle(states, steps);
  }

  lemma FinishStraddle(states: seq<State>, steps: seq<Step>) returns (states': seq<State>, steps': seq<Step>, s': State)
    requires Run(states, steps, 2)
    requires var s := states[|steps|];
      && s.head == 3 && s.words == [3, 2] && s.owner == Some(1) && s.begun == 2 && s.completed == {[1, 2]}
      && s.writers == map[0 := Idle, 1 := Inside(2, [3, 4], 1)]
      && s.remote == Remote(Snap(None, None, map[0 := 3, 1 := 2]), NOTHING, 1, 2, [3, 2])
    ensures Run(states', steps', 2) && states'[|steps'|] == s'
    ensures s'.head == 4 && s'.tail == 4 && s'.words == [3, 4] && s'.owner == None && s'.begun == 2
    ensures s'.writers == map[0 := Idle, 1 := Idle] && s'.completed == {[1, 2], [3, 4]}
    ensures s'.remote == Remote(Snap(Some(4), Some(4), map[0 := 3, 1 := 2]), NOTHING, 1, 2, [3, 2])
  {
    var remote := states[|steps|].remote;
    hide Run, Init;
    states', steps', s' := Extend(states, steps, 2, StoreWord(1));
    assert s'.words == [3, 4] && s'.remote == remote;
    states', steps', s' := Extend(states', steps', 2, StoreTail(1));
    states', steps', s' := Extend(states', steps', 2, StoreHead(1));
    assert s'.words == [3, 4] && s'.head == 4 && s'.tail == 4 && s'.remote == remote;
    states', steps', s' := Extend(states', steps', 2, ReadRemote(Head));
    assert s'.remote.first == Snap(Some(4), None, map[0 := 3, 1 := 2]);
    states', steps', s' := Extend(states', steps', 2, ReadRemote(Tail));
  }

  /** The second write has begun while the second snapshot has one word left to read. */
  lemma SecondWrite() returns (states: seq<State>, steps: seq<Step>, s: State)
    ensures Run(states, steps, 2) && states[|steps|] == s
    ensures s.words == [3, 4] && s.head == 5 && s.owner == Some(0) && s.begun == 3 && s.completed == {[1, 2], [3, 4]}
    ensures At(s, 0) == Inside(4, [5, 2], 0)
    ensures s.remote == Remote(Snap(Some(4), Some(4), map[0 := 3, 1 := 2]), Snap(Some(4), Some(4), map[0 := 3]), 1, 2, [3, 2])
  {
    states, steps, s := StraddlingSnapshot();
    hide Run, Init;
    states, steps, s := Extend(states, steps, 2, ReadRemote(Head));
    states, steps, s := Extend(states, steps, 2, ReadRemote(Tail));
    states, steps, s := Extend(states, steps, 2, ReadRemote(Word(0)));
    assert s.remote.second == Snap(Some(4), Some(4), map[0 := 3]);
    states, steps, s := Extend(states, steps, 2, LoadHead(0, [5, 2]));
    states, steps, s := Extend(states, steps, 2, Cas(0, true));
  }

  /**
   * With two writes over the pair the test accepts a row that nobody wrote: the first snapshot mixes
   * the old words with the first write, and the second write restores the stale word for the second
   * snapshot without having finished.
   */
  lemma TwoWritesTear() returns (states: seq<State>, steps: seq<Step>, s: State)
    ensures Run(states, steps, 2) && states[|steps|] == s && |s.words| == 2
    ensures Accepts(s.remote, 2) && Row(s.remote.first, 2) == [3, 2] && [3, 2] !in s.completed
    ensures s.begun == s.remote.base + 2
  {
    states, steps, s := SecondWrite();
    hide Run, Init;
    states, steps, s := Extend(states, steps, 2, StoreWord(0));
    states, steps, s := Extend(states, steps, 2, StoreWord(0));
    assert s.words == [5, 2];
    states, steps, s := Extend(states, steps, 2, ReadRemote(Word(1)));
    assert s.remote.second == Snap(Some(4), Some(4), map[0 := 3, 1 := 2]);
  }
}
