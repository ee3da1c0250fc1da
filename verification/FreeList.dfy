/**
 * The lock-free index allocator: a Treiber stack whose head carries a 32-bit tag.
 *
 * Any number of threads interleave single loads, stores, swaps and compare-and-swaps. A releaser
 * that finds an index not leased panics; by then it has cut the link of that index, and the other
 * threads go on with what the cut left of the stack.
 */
module FreeLists {

  const EMPTY: nat := 0xFFFF_FFFF
  const LEASED: nat := 0xFFFF_FFFE
  const TAGS: nat := 0x1_0000_0000

  /**
   * Where an index is: on the stack, popped but not yet marked, held by a caller, in a releaser's chain, or
   * out of reach behind a cut link.
   */
  datatype Place = InFree | Popped(t: nat) | Leased | Chained(t: nat) | Lost

  /** Where a thread stands. `ver` is the number of head changes when it loaded the head. */
  datatype Thread =
    | Idle
    | SawHead(h: nat, tag: nat, ver: nat)
    | SawNext(h: nat, tag: nat, ver: nat, next: nat)
    | Marking(h: nat)
    | Chaining(todo: seq<nat>, chain: seq<nat>)
    | Linking(todo: seq<nat>, chain: seq<nat>, i: nat)
    | LoadedHead(chain: seq<nat>, h: nat, tag: nat, ver: nat)
    | StoredTail(chain: seq<nat>, h: nat, tag: nat, ver: nat)
    | Panicked(chain: seq<nat>)

  datatype State = State(
    head: nat,
    tag: nat,
    next: seq<nat>,
    threads: map<nat, Thread>,
    /** Indices whose link a panicking release cut, changes of the head so far, the stack from the top, and places. */
    cut: set<nat>,
    version: nat,
    free: seq<nat>,
    place: seq<Place>
  )

  datatype Step =
    | LoadHead(t: nat)
    | LoadNext(t: nat)
    | AcquireCas(t: nat, ok: bool)
    | MarkLeased(t: nat)
    | StartRelease(t: nat, indices: seq<nat>)
    | SwapNext(t: nat)
    | Link(t: nat)
    | LoadHeadToRelease(t: nat)
    | StoreTail(t: nat)
    | ReleaseCas(t: nat, ok: bool)

  function Local(s: State, t: nat): Thread {
    if t in s.threads then s.threads[t] else Idle
  }

  function Top(free: seq<nat>): nat {
    if free == [] then EMPTY else free[0]
  }

  function Last(chain: seq<nat>): nat
    requires chain != []
  {
    chain[|chain| - 1]
  }

  /** May this step be taken? A compare-and-swap may fail for no reason, but succeeds only on equal words. */
  predicate Enabled(s: State, step: Step) {
    match step
    case LoadHead(t) => Local(s, t).Idle?
    case LoadNext(t) => Local(s, t).SawHead? && Local(s, t).h < |s.next|
    case AcquireCas(t, ok) => Local(s, t).SawNext? && (ok ==> Local(s, t).h == s.head && Local(s, t).tag == s.tag)
    case MarkLeased(t) => Local(s, t).Marking? && Local(s, t).h < |s.next|
    case StartRelease(t, _) => Local(s, t).Idle?
    case SwapNext(t) => Local(s, t).Chaining? && Local(s, t).todo != []
    case Link(t) => Local(s, t).Linking? && Local(s, t).chain != [] && Last(Local(s, t).chain) < |s.next|
    case LoadHeadToRelease(t) => Local(s, t).Chaining? && Local(s, t).todo == []
    case StoreTail(t) => Local(s, t).LoadedHead? && Local(s, t).chain != [] && Last(Local(s, t).chain) < |s.next|
    case ReleaseCas(t, ok) =>
      Local(s, t).StoredTail? && Local(s, t).chain != [] && (ok ==> Local(s, t).h == s.head && Local(s, t).tag == s.tag)
  }

  /** Mark the places of some indices. */
  function Put(place: seq<Place>, chain: seq<nat>, p: Place): (r: seq<Place>)
    ensures |r| == |place|
    ensures forall i :: 0 <= i < |place| ==> r[i] == if i in chain then p else place[i]
  {
    seq(|place|, i requires 0 <= i < |place| => if i in chain then p else place[i])
  }

  /** The places once `h` was popped and the link behind it found to lead past `lost`. */
  function AfterPop(place: seq<Place>, lost: seq<nat>, h: nat, t: nat): (r: seq<Place>)
    ensures |r| == |place|
    ensures forall i :: 0 <= i < |place| ==> r[i] == if i == h then Popped(t) else if i in lost then Lost else place[i]
  {
    Put(Put(place, lost, Lost), [h], Popped(t))
  }

  function Apply(s: State, step: Step): State
    requires Enabled(s, step)
  {
    match step
    case LoadHead(t) =>
      if s.head == EMPTY then s else s.(threads := s.threads[t := SawHead(s.head, s.tag, s.version)])
    case LoadNext(t) =>
      var l := Local(s, t);
      s.(threads := s.threads[t := SawNext(l.h, l.tag, l.ver, s.next[l.h])])
    case AcquireCas(t, ok) =>
      var l := Local(s, t);
      if !ok then s.(threads := s.threads[t := Idle])
      else
        var rest := if s.free == [] then [] else s.free[1..];
        s.(head := l.next, tag := (s.tag + 1) % TAGS, version := s.version + 1,
           threads := s.threads[t := Marking(l.h)],
           free := if l.next == Top(rest) then rest else [],
           place := AfterPop(s.place, if l.next == Top(rest) then [] else rest, l.h, t))
    case MarkLeased(t) =>
      var h := Local(s, t).h;
      s.(next := s.next[h := LEASED], threads := s.threads[t := Idle], place := Put(s.place, [h], Leased))
    case StartRelease(t, indices) => s.(threads := s.threads[t := Chaining(indices, [])])
    case SwapNext(t) =>
      var l := Local(s, t);
      var i := l.todo[0];
      if i >= |s.next| then s.(threads := s.threads[t := Chaining(l.todo[1..], l.chain)])
      else if s.next[i] != LEASED then s.(next := s.next[i := EMPTY], cut := s.cut + {i}, threads := s.threads[t := Panicked(l.chain)])
      else s.(next := s.next[i := EMPTY], place := Put(s.place, [i], Chained(t)),
              threads := s.threads[t := if l.chain == [] then Chaining(l.todo[1..], [i]) else Linking(l.todo[1..], l.chain, i)])
    case Link(t) =>
      var l := Local(s, t);
      s.(next := s.next[Last(l.chain) := l.i], threads := s.threads[t := Chaining(l.todo, l.chain + [l.i])])
    case LoadHeadToRelease(t) =>
      var l := Local(s, t);
      if l.chain == [] then s.(threads := s.threads[t := Idle])
      else s.(threads := s.threads[t := LoadedHead(l.chain, s.head, s.tag, s.version)])
    case StoreTail(t) =>
      var l := Local(s, t);
      s.(next := s.next[Last(l.chain) := l.h], threads := s.threads[t := StoredTail(l.chain, l.h, l.tag, l.ver)])
    case ReleaseCas(t, ok) =>
      var l := Local(s, t);
      if !ok then s.(threads := s.threads[t := Chaining([], l.chain)])
      else s.(head := l.chain[0], tag := (s.tag + 1) % TAGS, version := s.version + 1,
              threads := s.threads[t := Idle], free := l.chain + s.free, place := Put(s.place, l.chain, InFree))
  }

  /** Fewer than 2^32 head changes since the thread loaded the head it is about to swap. */
  predicate NoWrap(s: State, step: Step) {
    step.AcquireCas? && Local(s, step.t).SawNext? ==> s.version < Local(s, step.t).ver + TAGS
  }

  // -- The invariant --------------------------------------------------------------------

  predicate Distinct(s: seq<nat>) {
    forall i, j :: 0 <= i < j < |s| ==> s[i] != s[j]
  }

  /** The link of `i` leads to `target`, or was cut. */
  predicate Leads(next: seq<nat>, cut: set<nat>, i: nat, target: nat) {
    i < |next| && (next[i] == target || (i in cut && next[i] == EMPTY))
  }

  /** The stack: in range, without repetition, linked from the head to the end but for cuts. */
  predicate FreeOk(head: nat, next: seq<nat>, cut: set<nat>, free: seq<nat>, place: seq<Place>) {
    && |place| == |next| <= LEASED && head == Top(free) && Distinct(free)
    && (forall k :: 0 <= k < |free| ==> free[k] < |next| && place[free[k]] == InFree)
    && (forall k :: 0 <= k < |free| ==> Leads(next, cut, free[k], Top(free[k + 1..])))
    && forall i :: 0 <= i < |place| && place[i] == InFree ==> i in free
  }

  /** Exactly the leased slots carry the sentinel. */
  predicate SentinelOk(next: seq<nat>, place: seq<Place>) {
    && |place| == |next|
    && forall i :: 0 <= i < |next| ==> (next[i] == LEASED <==> place[i] == Leased)
  }

  predicate ChainOk(t: nat, chain: seq<nat>, next: seq<nat>, cut: set<nat>, place: seq<Place>) {
    && |place| == |next| && Distinct(chain)
    && (forall k :: 0 <= k < |chain| ==> chain[k] < |next| && place[chain[k]] == Chained(t))
    && forall k :: 0 <= k < |chain| - 1 ==> Leads(next, cut, chain[k], chain[k + 1])
  }

  predicate ThreadOk(s: State, t: nat, l: Thread) {
    match l
    case Idle => true
    case SawHead(h, tag, ver) =>
      h < |s.next| && ver <= s.version && tag == ver % TAGS && (ver == s.version ==> s.head == h)
    case SawNext(h, tag, ver, n) =>
      && h < |s.next| && ver <= s.version && tag == ver % TAGS
      && (ver == s.version ==> s.head == h && s.free != [] && (n == Top(s.free[1..]) || (h in s.cut && n == EMPTY)))
    case Marking(h) => h < |s.next| && |s.place| == |s.next| && s.place[h] == Popped(t)
    case Chaining(_, chain) => ChainOk(t, chain, s.next, s.cut, s.place)
    case Linking(_, chain, i) =>
      && chain != [] && ChainOk(t, chain, s.next, s.cut, s.place)
      && i < |s.next| && i !in chain && s.place[i] == Chained(t)
    case LoadedHead(chain, h, _, _) => chain != [] && ChainOk(t, chain, s.next, s.cut, s.place) && (h < |s.next| || h == EMPTY)
    case StoredTail(chain, h, _, _) =>
      chain != [] && ChainOk(t, chain, s.next, s.cut, s.place) && Leads(s.next, s.cut, Last(chain), h) && (h < |s.next| || h == EMPTY)
    case Panicked(chain) => forall k :: 0 <= k < |chain| ==> chain[k] < |s.place| && s.place[chain[k]] == Chained(t)
  }

  function HeldBy(l: Thread): seq<nat> {
    match l
    case Marking(h) => [h]
    case Chaining(_, chain) => chain
    case Linking(_, chain, i) => chain + [i]
    case LoadedHead(chain, _, _, _) => chain
    case StoredTail(chain, _, _, _) => chain
    case Panicked(chain) => chain
    case _ => []
  }

  /** An index that is neither free nor leased is in the hands of the thread its place names. */
  predicate BackedOk(s: State) {
    forall i :: 0 <= i < |s.place| ==> Backed(s, i, s.place[i])
  }

  predicate Backed(s: State, i: nat, p: Place) {
    && (p.Popped? ==> Local(s, p.t) == Marking(i))
    && (p.Chained? ==> !Local(s, p.t).Marking? && i in HeldBy(Local(s, p.t)))
  }

  predicate ThreadsOk(s: State) {
    forall t :: t in s.threads ==> ThreadOk(s, t, s.threads[t])
  }

  predicate Inv(s: State) {
    && FreeOk(s.head, s.next, s.cut, s.free, s.place) && SentinelOk(s.next, s.place)
    && s.tag == s.version % TAGS
    && BackedOk(s) && ThreadsOk(s)
  }

  // -- Steps ------------------------------------------------------------------------------

  predicate Foreign(p: Place, t: nat) {
    (p.Popped? || p.Chained?) && p.t != t
  }

  /** What a step of thread `t` may change for the others: nothing on the stack, nothing that they hold. */
  ghost predicate Mine(s: State, s': State, t: nat) {
    && |s'.next| == |s.next| == |s.place| == |s'.place| && s'.cut == s.cut
    && (s'.version == s.version ==> s'.free == s.free)
    && (forall i :: 0 <= i < |s.next| && s.place[i] == InFree ==> s'.next[i] == s.next[i])
    && (forall i :: 0 <= i < |s.next| && (Foreign(s.place[i], t) || Foreign(s'.place[i], t)) ==>
          s'.next[i] == s.next[i] && s'.place[i] == s.place[i])
    && (if s'.version == s.version then s'.head == s.head else s'.version > s.version)
    && (forall u :: u != t ==> Local(s', u) == Local(s, u))
  }

  /** A step that disturbs nobody keeps the invariant if its own thread and the stack come out right. */
  lemma Assemble(s: State, s': State, t: nat)
    requires Inv(s) && Mine(s, s', t) && ThreadOk(s', t, Local(s', t))
    requires FreeOk(s'.head, s'.next, s'.cut, s'.free, s'.place) && SentinelOk(s'.next, s'.place) && s'.tag == s'.version % TAGS
    requires forall i :: 0 <= i < |s'.place| && !Foreign(s'.place[i], t) ==> Backed(s', i, s'.place[i])
    ensures Inv(s')
  {
    OtherThreads(s, s', t);
    hide ThreadsOk, FreeOk, SentinelOk, ThreadOk;
    forall i | 0 <= i < |s'.place| ensures Backed(s', i, s'.place[i]) {
      if Foreign(s'.place[i], t) {
        assert Backed(s, i, s.place[i]);
      }
    }
  }

  lemma OtherThread(s: State, s': State, t: nat, u: nat)
    requires Mine(s, s', t) && u != t && FreeOk(s.head, s.next, s.cut, s.free, s.place)
    requires ThreadOk(s, u, Local(s, u))
    ensures ThreadOk(s', u, Local(s', u))
  {
    hide Distinct;
    match Local(s, u)
    case SawNext(h, _, ver, n) =>
      if ver == s'.version {
        assert s.head == Top(s.free) && h < |s.next| <= LEASED;
      }
    case _ =>
  }

  lemma OtherThreads(s: State, s': State, t: nat)
    requires Mine(s, s', t) && FreeOk(s.head, s.next, s.cut, s.free, s.place) && ThreadsOk(s)
    requires ThreadOk(s', t, Local(s', t))
    ensures ThreadsOk(s')
  {
    hide ThreadOk, Mine, FreeOk;
    forall u | u in s'.threads ensures ThreadOk(s', u, s'.threads[u]) {
      if u != t {
        assert Local(s', u) == Local(s, u) by { MineLocal(s, s', t, u); }
        if u in s.threads {
          OtherThread(s, s', t, u);
        } else {
          IdleOk(s', u);
        }
      }
    }
  }

  lemma MineLocal(s: State, s': State, t: nat, u: nat)
    requires Mine(s, s', t) && u != t
    ensures Local(s', u) == Local(s, u)
  {
  }

  lemma IdleOk(s: State, u: nat)
    ensures ThreadOk(s, u, Idle)
  {
  }

  /** Steps that only read: they take a note of the head or of a link. */
  lemma NoteStep(s: State, step: Step)
    requires Inv(s) && Enabled(s, step)
    requires step.LoadHead? || step.LoadNext? || step.StartRelease? || step.LoadHeadToRelease?
          || (step.AcquireCas? && !step.ok) || (step.ReleaseCas? && !step.ok)
    ensures Inv(Apply(s, step))
  {
    hide Inv, Apply, Enabled, Mine, FreeOk, SentinelOk, ThreadOk, Backed;
    NoteOk(s, step);
    NoteBacked(s, step);
    NoteMine(s, step);
    Assemble(s, Apply(s, step), step.t);
  }

  /** Such a step changes nothing but what its thread remembers. */
  lemma NoteKeeps(s: State, step: Step)
    requires Enabled(s, step)
    requires step.LoadHead? || step.LoadNext? || step.StartRelease? || step.LoadHeadToRelease?
          || (step.AcquireCas? && !step.ok) || (step.ReleaseCas? && !step.ok)
    ensures Apply(s, step) == s.(threads := Apply(s, step).threads)
    ensures forall u :: u != step.t ==> Local(Apply(s, step), u) == Local(s, u)
  {
    hide AfterPop, Put, Top;
  }

  lemma NoteMine(s: State, step: Step)
    requires Inv(s) && Enabled(s, step)
    requires step.LoadHead? || step.LoadNext? || step.StartRelease? || step.LoadHeadToRelease?
          || (step.AcquireCas? && !step.ok) || (step.ReleaseCas? && !step.ok)
    ensures var s' := Apply(s, step);
      && Mine(s, s', step.t)
      && FreeOk(s'.head, s'.next, s'.cut, s'.free, s'.place) && SentinelOk(s'.next, s'.place) && s'.tag == s'.version % TAGS
  {
    NoteKeeps(s, step);
    assert |s.next| == |s.place|;
    hide FreeOk, SentinelOk, ThreadsOk, BackedOk, Apply, Enabled, Local;
  }

  lemma NoteBacked(s: State, step: Step)
    requires Inv(s) && Enabled(s, step)
    requires step.LoadHead? || step.LoadNext? || step.StartRelease? || step.LoadHeadToRelease?
          || (step.AcquireCas? && !step.ok) || (step.ReleaseCas? && !step.ok)
    ensures BackedOk(Apply(s, step))
  {
    hide FreeOk, SentinelOk, ThreadsOk;
    var s' := Apply(s, step);
    forall i | 0 <= i < |s'.place| ensures Backed(s', i, s'.place[i]) {
      assert Backed(s, i, s.place[i]);
    }
  }

  lemma NoteOk(s: State, step: Step)
    requires Inv(s) && Enabled(s, step)
    requires step.LoadHead? || step.LoadNext? || step.StartRelease? || step.LoadHeadToRelease?
          || (step.AcquireCas? && !step.ok) || (step.ReleaseCas? && !step.ok)
    ensures ThreadOk(Apply(s, step), step.t, Local(Apply(s, step), step.t))
  {
    hide BackedOk, SentinelOk;
    var t := step.t;
    assert t in s.threads ==> ThreadOk(s, t, Local(s, t));
    if step.LoadHead? || step.LoadHeadToRelease? {
      assert s.free != [] ==> s.free[0] < |s.next|;
    }
  }

  // -- Acquiring --------------------------------------------------------------------------

  /**
   * A successful swap pops the real top: without a wrap, equal tags mean that the head has not changed
   * since it was loaded, so the link read in between is the link of the top, or the end it was cut to.
   */
  lemma PopReal(s: State, t: nat)
    requires Inv(s) && Enabled(s, AcquireCas(t, true)) && NoWrap(s, AcquireCas(t, true))
    ensures var l := Local(s, t);
      && l.ver == s.version && s.free != [] && s.free[0] == l.h
      && (l.next == Top(s.free[1..]) || (l.h in s.cut && l.next == EMPTY))
  {
    hide BackedOk, SentinelOk, Distinct;
    var l := Local(s, t);
    assert ThreadOk(s, t, l);
    SameTag(l.ver, s.version);
    assert s.free[0] == l.h;
  }

  lemma SameTag(ver: nat, version: nat)
    requires ver <= version < ver + TAGS && ver % TAGS == version % TAGS
    ensures ver == version
  {
  }

  lemma DropTop(next: seq<nat>, cut: set<nat>, free: seq<nat>, place: seq<Place>, h: nat, t: nat)
    requires FreeOk(h, next, cut, free, place) && free != [] && free[0] == h
    ensures FreeOk(Top(free[1..]), next, cut, free[1..], AfterPop(place, [], h, t))
  {
    var rest := free[1..];
    forall k | 0 <= k < |rest| ensures rest[k] == free[k + 1] && rest[k + 1..] == free[k + 2..] && rest[k] != h { }
    forall i | 0 <= i < |place| && AfterPop(place, [], h, t)[i] == InFree ensures i in rest {
      assert i in free && i != h;
    }
  }

  /** Behind a cut the stack is empty, and what hung there is lost. */
  lemma DropAll(next: seq<nat>, cut: set<nat>, free: seq<nat>, place: seq<Place>, h: nat, t: nat)
    requires FreeOk(h, next, cut, free, place) && free != [] && free[0] == h
    ensures FreeOk(EMPTY, next, cut, [], AfterPop(place, free[1..], h, t))
  {
    hide Distinct, Leads, AfterPop;
    forall i | 0 <= i < |place| ensures AfterPop(place, free[1..], h, t)[i] != InFree {
      if place[i] == InFree {
        assert i in free && free == [h] + free[1..];
      }
    }
    assert Distinct([]) by { NoneDistinct(); }
  }

  lemma NoneDistinct()
    ensures Distinct([])
  {
  }

  lemma PopStep(s: State, t: nat)
    requires Inv(s) && Enabled(s, AcquireCas(t, true)) && NoWrap(s, AcquireCas(t, true))
    ensures Inv(Apply(s, AcquireCas(t, true)))
  {
    hide Inv, Apply, FreeOk, SentinelOk, Mine, ThreadOk, Backed;
    PopReal(s, t);
    PopFree(s, t);
    PopParts(s, t);
    Assemble(s, Apply(s, AcquireCas(t, true)), t);
  }

  lemma PopFree(s: State, t: nat)
    requires Inv(s) && Enabled(s, AcquireCas(t, true))
    requires s.free != [] && s.free[0] == Local(s, t).h
    requires Local(s, t).next == Top(s.free[1..]) || Local(s, t).next == EMPTY
    ensures var s' := Apply(s, AcquireCas(t, true));
      FreeOk(s'.head, s'.next, s'.cut, s'.free, s'.place) && s'.tag == s'.version % TAGS
  {
    hide FreeOk, SentinelOk, ThreadsOk, BackedOk, AfterPop, Put;
    TagStep(s.version);
    assert s.head == Local(s, t).h;
    DropTop(s.next, s.cut, s.free, s.place, Local(s, t).h, t);
    DropAll(s.next, s.cut, s.free, s.place, Local(s, t).h, t);
  }

  lemma PopParts(s: State, t: nat)
    requires Inv(s) && Enabled(s, AcquireCas(t, true)) && s.free != [] && s.free[0] == Local(s, t).h
    ensures var s' := Apply(s, AcquireCas(t, true));
      && Mine(s, s', t) && SentinelOk(s'.next, s'.place) && ThreadOk(s', t, Local(s', t))
      && forall i :: 0 <= i < |s'.place| && !Foreign(s'.place[i], t) ==> Backed(s', i, s'.place[i])
  {
    FreePlaces(s);
    PopPlaces(s, t);
    hide FreeOk, ThreadsOk, Apply, Mine;
    PopSentinel(s.next, s.place, Apply(s, AcquireCas(t, true)).place, s.free, Local(s, t).h, t);
    PopMine(s, t);
    PopBacked(s, t);
    assert SentinelOk(s.next, Apply(s, AcquireCas(t, true)).place);
    hide SentinelOk, BackedOk;
    PopNext(s, t);
  }

  /** What is on the stack is free. */
  lemma FreePlaces(s: State)
    requires FreeOk(s.head, s.next, s.cut, s.free, s.place)
    ensures |s.place| == |s.next| && forall x :: x in s.free ==> x < |s.place| && s.place[x] == InFree
  {
  }

  lemma PopSentinel(next: seq<nat>, place: seq<Place>, place': seq<Place>, free: seq<nat>, h: nat, t: nat)
    requires SentinelOk(next, place) && free != [] && free[0] == h && |place'| == |place|
    requires forall x :: x in free ==> x < |place| && place[x] == InFree
    requires forall i :: 0 <= i < |place| && i != h ==> place'[i] == place[i] || (i in free[1..] && place'[i] == Lost)
    requires h < |place| && place'[h] == Popped(t)
    ensures SentinelOk(next, place')
  {
    forall i | 0 <= i < |place| ensures next[i] == LEASED <==> place'[i] == Leased {
      if i in free[1..] {
        assert i in free;
      }
    }
  }

  lemma PopNext(s: State, t: nat)
    requires Enabled(s, AcquireCas(t, true)) && Local(s, t).h < |s.next| == |s.place|
    requires Apply(s, AcquireCas(t, true)).place[Local(s, t).h] == Popped(t)
    requires |Apply(s, AcquireCas(t, true)).place| == |s.place|
    ensures var s' := Apply(s, AcquireCas(t, true)); s'.next == s.next && ThreadOk(s', t, Local(s', t))
  {
    hide AfterPop;
  }

  lemma PopMine(s: State, t: nat)
    requires Enabled(s, AcquireCas(t, true)) && s.free != [] && s.free[0] == Local(s, t).h && |s.next| == |s.place|
    requires forall x :: x in s.free ==> x < |s.place| && s.place[x] == InFree
    ensures Mine(s, Apply(s, AcquireCas(t, true)), t)
  {
    hide AfterPop;
    assert Local(s, t).h in s.free;
    PopPlaces(s, t);
    var s' := Apply(s, AcquireCas(t, true));
    forall i | 0 <= i < |s.next| && (Foreign(s.place[i], t) || Foreign(s'.place[i], t)) ensures s'.place[i] == s.place[i] {
      assert i in s.free[1..] ==> i in s.free;
    }
  }

  lemma PopBacked(s: State, t: nat)
    requires BackedOk(s) && Enabled(s, AcquireCas(t, true)) && s.free != [] && s.free[0] == Local(s, t).h && |s.next| == |s.place|
    requires forall x :: x in s.free ==> x < |s.place| && s.place[x] == InFree
    ensures var s' := Apply(s, AcquireCas(t, true));
      forall i :: 0 <= i < |s'.place| && !Foreign(s'.place[i], t) ==> Backed(s', i, s'.place[i])
  {
    hide AfterPop;
    assert Local(s, t).h in s.free;
    PopPlaces(s, t);
    var s' := Apply(s, AcquireCas(t, true));
    forall i | 0 <= i < |s'.place| && !Foreign(s'.place[i], t) ensures Backed(s', i, s'.place[i]) {
      assert Backed(s, i, s.place[i]);
    }
  }

  lemma PopPlaces(s: State, t: nat)
    requires Enabled(s, AcquireCas(t, true)) && s.free != [] && Local(s, t).h < |s.place|
    ensures var s', h := Apply(s, AcquireCas(t, true)), Local(s, t).h;
      && |s'.place| == |s.place| && s'.place[h] == Popped(t)
      && forall i :: 0 <= i < |s.place| && i != h ==> s'.place[i] == s.place[i] || (i in s.free[1..] && s'.place[i] == Lost)
  {
    hide AfterPop;
  }

  lemma TagStep(version: nat)
    ensures (version % TAGS + 1) % TAGS == (version + 1) % TAGS
  {
  }

  /** Writing outside the stack keeps it. */
  lemma FreeFrame(head: nat, next: seq<nat>, next': seq<nat>, cut: set<nat>, free: seq<nat>, place: seq<Place>, place': seq<Place>)
    requires FreeOk(head, next, cut, free, place) && |next'| == |next| && |place'| == |place|
    requires forall i :: 0 <= i < |place| ==> (place'[i] == InFree <==> place[i] == InFree)
    requires forall i :: 0 <= i < |place| && place[i] == InFree ==> next'[i] == next[i]
    ensures FreeOk(head, next', cut, free, place')
  {
    hide Distinct;
  }

  lemma MarkStep(s: State, t: nat)
    requires Inv(s) && Enabled(s, MarkLeased(t))
    ensures Inv(Apply(s, MarkLeased(t)))
  {
    var s' := Apply(s, MarkLeased(t));
    var h := Local(s, t).h;
    assert ThreadOk(s, t, Local(s, t));
    FreeFrame(s.head, s.next, s'.next, s.cut, s.free, s.place, s'.place);
    hide FreeOk, ThreadsOk;
    forall i | 0 <= i < |s'.place| && !Foreign(s'.place[i], t) ensures Backed(s', i, s'.place[i]) {
      assert i != h ==> Backed(s, i, s.place[i]);
    }
    Assemble(s, s', t);
  }

  // -- Releasing --------------------------------------------------------------------------

  /** An index whose sentinel was swapped out was leased, and is the releaser's alone from then on. */
  lemma SwapStep(s: State, t: nat)
    requires Inv(s) && Enabled(s, SwapNext(t))
    requires !CutsLink(s, t)
    ensures Inv(Apply(s, SwapNext(t)))
  {
    var s' := Apply(s, SwapNext(t));
    assert ThreadOk(s, t, Local(s, t));
    FreeFrame(s.head, s.next, s'.next, s.cut, s.free, s.place, s'.place);
    SwapParts(s, t);
    hide FreeOk, ThreadOk, SentinelOk, ThreadsOk, BackedOk, Mine, Backed;
    Assemble(s, s', t);
  }

  /** This swap finds an index that is not leased. */
  predicate CutsLink(s: State, t: nat) {
    Local(s, t).Chaining? && Local(s, t).todo != [] && Local(s, t).todo[0] < |s.next| && s.next[Local(s, t).todo[0]] != LEASED
  }

  /** A cut disturbs nobody beyond what `Leads` allows for. */
  lemma CutStep(s: State, t: nat)
    requires Inv(s) && Enabled(s, SwapNext(t)) && CutsLink(s, t)
    ensures Inv(Apply(s, SwapNext(t)))
  {
    hide ThreadOk, Distinct, Backed;
    var s', x := Apply(s, SwapNext(t)), Local(s, t).todo[0];
    CutFree(s.head, s.next, s.cut, s.free, s.place, x);
    assert ThreadOk(s, t, Local(s, t));
    forall u | u in s'.threads ensures ThreadOk(s', u, s'.threads[u]) {
      if u == t { CutSelf(s, s', t, Local(s, t)); } else { CutThread(s, s', u, s.threads[u], x); }
    }
    forall i | 0 <= i < |s'.place| ensures Backed(s', i, s'.place[i]) {
      assert Backed(s, i, s.place[i]);
      CutBacked(s, s', t, i);
    }
  }

  lemma CutSelf(s: State, s': State, t: nat, l: Thread)
    requires ThreadOk(s, t, l) && l.Chaining? && s'.place == s.place
    ensures ThreadOk(s', t, Panicked(l.chain))
  {
  }

  lemma CutBacked(s: State, s': State, t: nat, i: nat)
    requires i < |s.place| && Backed(s, i, s.place[i]) && Local(s, t).Chaining?
    requires s' == s.(next := s'.next, cut := s'.cut, threads := s.threads[t := Panicked(Local(s, t).chain)])
    ensures Backed(s', i, s.place[i])
  {
  }

  lemma CutFree(head: nat, next: seq<nat>, cut: set<nat>, free: seq<nat>, place: seq<Place>, x: nat)
    requires FreeOk(head, next, cut, free, place) && x < |next|
    ensures FreeOk(head, next[x := EMPTY], cut + {x}, free, place)
  {
    hide Distinct;
    forall k | 0 <= k < |free| ensures Leads(next[x := EMPTY], cut + {x}, free[k], Top(free[k + 1..])) {
      assert Leads(next, cut, free[k], Top(free[k + 1..]));
    }
  }

  lemma CutChain(t: nat, chain: seq<nat>, next: seq<nat>, cut: set<nat>, place: seq<Place>, x: nat)
    requires ChainOk(t, chain, next, cut, place) && x < |next|
    ensures ChainOk(t, chain, next[x := EMPTY], cut + {x}, place)
  {
    hide Distinct;
    forall k | 0 <= k < |chain| - 1 ensures Leads(next[x := EMPTY], cut + {x}, chain[k], chain[k + 1]) {
      assert Leads(next, cut, chain[k], chain[k + 1]);
    }
  }

  lemma CutThread(s: State, s': State, u: nat, l: Thread, x: nat)
    requires ThreadOk(s, u, l) && x < |s.next|
    requires s' == s.(next := s.next[x := EMPTY], cut := s.cut + {x}, threads := s'.threads)
    ensures ThreadOk(s', u, l)
  {
    hide ChainOk;
    if l.Chaining? || l.Linking? || l.LoadedHead? || l.StoredTail? {
      CutChain(u, l.chain, s.next, s.cut, s.place, x);
    }
  }

  lemma SwapParts(s: State, t: nat)
    requires Inv(s) && Enabled(s, SwapNext(t)) && !CutsLink(s, t)
    ensures var s' := Apply(s, SwapNext(t));
      && Mine(s, s', t) && SentinelOk(s'.next, s'.place) && ThreadOk(s', t, Local(s', t))
      && forall i :: 0 <= i < |s'.place| && !Foreign(s'.place[i], t) ==> Backed(s', i, s'.place[i])
  {
    assert ThreadOk(s, t, Local(s, t));
    SwapMine(s, t);
    SwapThread(s, t);
    SwapBacked(s, t);
  }

  lemma SwapMine(s: State, t: nat)
    requires Inv(s) && Enabled(s, SwapNext(t)) && !CutsLink(s, t)
    ensures Mine(s, Apply(s, SwapNext(t)), t)
    ensures SentinelOk(Apply(s, SwapNext(t)).next, Apply(s, SwapNext(t)).place)
  {
    hide FreeOk, ThreadsOk, BackedOk;
  }

  lemma SwapThread(s: State, t: nat)
    requires Inv(s) && Enabled(s, SwapNext(t)) && !CutsLink(s, t)
    requires ThreadOk(s, t, Local(s, t))
    ensures ThreadOk(Apply(s, SwapNext(t)), t, Local(Apply(s, SwapNext(t)), t))
  {
    hide FreeOk, ThreadsOk, BackedOk;
    var x, chain := Local(s, t).todo[0], Local(s, t).chain;
    if x < |s.next| {
      assert s.place[x] == Leased && x !in chain;
      SwapChain(t, chain, x, s.next, s.cut, s.place);
    }
  }

  lemma SwapChain(t: nat, chain: seq<nat>, x: nat, next: seq<nat>, cut: set<nat>, place: seq<Place>)
    requires ChainOk(t, chain, next, cut, place) && x < |next| && x !in chain
    ensures ChainOk(t, chain, next[x := EMPTY], cut, Put(place, [x], Chained(t)))
    ensures ChainOk(t, [x], next[x := EMPTY], cut, Put(place, [x], Chained(t)))
  {
  }

  lemma SwapBacked(s: State, t: nat)
    requires Inv(s) && Enabled(s, SwapNext(t)) && !CutsLink(s, t)
    ensures var s' := Apply(s, SwapNext(t));
      forall i :: 0 <= i < |s'.place| && !Foreign(s'.place[i], t) ==> Backed(s', i, s'.place[i])
  {
    hide FreeOk, ThreadsOk;
    var s' := Apply(s, SwapNext(t));
    var x := Local(s, t).todo[0];
    forall i | 0 <= i < |s'.place| && !Foreign(s'.place[i], t) ensures Backed(s', i, s'.place[i]) {
      assert i != x ==> Backed(s, i, s.place[i]);
    }
  }

  lemma LinkStep(s: State, t: nat)
    requires Inv(s) && Enabled(s, Link(t))
    ensures Inv(Apply(s, Link(t)))
  {
    hide Inv, FreeOk, SentinelOk, Mine, ThreadOk, Backed;
    var s', l := Apply(s, Link(t)), Local(s, t);
    LinkParts(s, t);
    OwnWrite(s, s', t, Last(l.chain), l.i);
    OwnFree(s, s', t, Last(l.chain), l.i);
    Assemble(s, s', t);
  }

  lemma LinkParts(s: State, t: nat)
    requires Inv(s) && Enabled(s, Link(t))
    ensures var s', l := Apply(s, Link(t)), Local(s, t);
      && ThreadOk(s', t, Local(s', t))
      && Last(l.chain) < |s.next| == |s.place| && s.place[Last(l.chain)] == Chained(t) && l.i < |s.next|
  {
    hide FreeOk, SentinelOk, BackedOk, ChainOk;
    var l := Local(s, t);
    assert ThreadOk(s, t, l);
    LastOf(t, l.chain, s.next, s.cut, s.place);
    LinkChain(t, l.chain, l.i, s.next, s.cut, s.place);
    hide ThreadsOk;
  }

  lemma OwnFree(s: State, s': State, t: nat, x: nat, value: nat)
    requires Inv(s) && x < |s.next| == |s.place| && s.place[x] == Chained(t)
    requires s' == s.(next := s.next[x := value], threads := s'.threads)
    ensures FreeOk(s'.head, s'.next, s'.cut, s'.free, s'.place) && s'.tag == s'.version % TAGS
  {
    hide SentinelOk, ThreadsOk, BackedOk;
    FreeFrame(s.head, s.next, s'.next, s.cut, s.free, s.place, s'.place);
  }

  /** A store into a link of one's own chain. */
  lemma OwnWrite(s: State, s': State, t: nat, x: nat, value: nat)
    requires Inv(s) && x < |s.next| == |s.place| && s.place[x] == Chained(t) && (value < |s.next| || value == EMPTY)
    requires s' == s.(next := s.next[x := value], threads := s'.threads)
    requires forall u :: u != t ==> Local(s', u) == Local(s, u)
    requires !Local(s', t).Marking? && (forall i :: i in HeldBy(Local(s, t)) ==> i in HeldBy(Local(s', t)))
    ensures Mine(s, s', t) && SentinelOk(s'.next, s'.place)
    ensures forall i :: 0 <= i < |s'.place| && !Foreign(s'.place[i], t) ==> Backed(s', i, s'.place[i])
  {
    hide ThreadsOk, Distinct;
    assert Backed(s, x, s.place[x]);
    forall i | 0 <= i < |s'.place| && !Foreign(s'.place[i], t) ensures Backed(s', i, s'.place[i]) {
      assert Backed(s, i, s.place[i]);
    }
  }

  lemma LinkChain(t: nat, chain: seq<nat>, i: nat, next: seq<nat>, cut: set<nat>, place: seq<Place>)
    requires chain != [] && ChainOk(t, chain, next, cut, place) && i < |next| && i !in chain && place[i] == Chained(t)
    ensures ChainOk(t, chain + [i], next[Last(chain) := i], cut, place)
  {
  }

  lemma TailChain(t: nat, chain: seq<nat>, h: nat, next: seq<nat>, cut: set<nat>, place: seq<Place>)
    requires chain != [] && ChainOk(t, chain, next, cut, place)
    ensures ChainOk(t, chain, next[Last(chain) := h], cut, place)
  {
  }

  lemma TailStep(s: State, t: nat)
    requires Inv(s) && Enabled(s, StoreTail(t))
    ensures Inv(Apply(s, StoreTail(t)))
  {
    hide Inv, FreeOk, SentinelOk, Mine, ThreadOk, Backed;
    var s', l := Apply(s, StoreTail(t)), Local(s, t);
    TailParts(s, t);
    OwnWrite(s, s', t, Last(l.chain), l.h);
    OwnFree(s, s', t, Last(l.chain), l.h);
    Assemble(s, s', t);
  }

  lemma TailParts(s: State, t: nat)
    requires Inv(s) && Enabled(s, StoreTail(t))
    ensures var s', l := Apply(s, StoreTail(t)), Local(s, t);
      && ThreadOk(s', t, Local(s', t))
      && Last(l.chain) < |s.next| == |s.place| && s.place[Last(l.chain)] == Chained(t) && (l.h < |s.next| || l.h == EMPTY)
  {
    hide FreeOk, SentinelOk, BackedOk, ChainOk;
    var l := Local(s, t);
    assert ThreadOk(s, t, l);
    LastOf(t, l.chain, s.next, s.cut, s.place);
    TailChain(t, l.chain, l.h, s.next, s.cut, s.place);
    hide ThreadsOk;
  }

  lemma LastOf(t: nat, chain: seq<nat>, next: seq<nat>, cut: set<nat>, place: seq<Place>)
    requires ChainOk(t, chain, next, cut, place) && chain != []
    ensures Last(chain) < |next| == |place| && place[Last(chain)] == Chained(t)
  {
  }

  lemma SpliceLinks(next: seq<nat>, cut: set<nat>, chain: seq<nat>, free: seq<nat>)
    requires chain != []
    requires forall k :: 0 <= k < |chain| - 1 ==> Leads(next, cut, chain[k], chain[k + 1])
    requires Leads(next, cut, Last(chain), Top(free))
    requires forall k :: 0 <= k < |free| ==> Leads(next, cut, free[k], Top(free[k + 1..]))
    ensures forall k :: 0 <= k < |chain + free| ==> Leads(next, cut, (chain + free)[k], Top((chain + free)[k + 1..]))
  {
    hide Leads;
    var all := chain + free;
    forall k | 0 <= k < |all| ensures Leads(next, cut, all[k], Top(all[k + 1..])) {
      if k >= |chain| {
        assert all[k] == free[k - |chain|];
        assert all[k + 1..] == free[k - |chain| + 1..];
      } else if k == |chain| - 1 {
        assert all[k + 1..] == free;
      } else {
        assert all[k + 1] == chain[k + 1];
      }
    }
  }

  lemma SpliceDistinct(place: seq<Place>, t: nat, chain: seq<nat>, free: seq<nat>)
    requires Distinct(chain) && Distinct(free)
    requires forall i :: 0 <= i < |chain| ==> chain[i] < |place| && place[chain[i]] == Chained(t)
    requires forall i :: 0 <= i < |free| ==> free[i] < |place| && place[free[i]] == InFree
    ensures Distinct(chain + free)
  {
    var all := chain + free;
    forall i, j | 0 <= i < j < |all| ensures all[i] != all[j] {
      if i < |chain| <= j {
        assert place[all[i]] == Chained(t) && place[all[j]] == InFree;
      }
    }
  }

  /** A private chain whose tail links to the top becomes the front of the stack. */
  lemma Splice(head: nat, next: seq<nat>, cut: set<nat>, free: seq<nat>, place: seq<Place>, t: nat, chain: seq<nat>)
    requires FreeOk(head, next, cut, free, place) && ChainOk(t, chain, next, cut, place) && chain != []
    requires Leads(next, cut, Last(chain), head)
    ensures FreeOk(chain[0], next, cut, chain + free, Put(place, chain, InFree))
  {
    SpliceLinks(next, cut, chain, free);
    SpliceDistinct(place, t, chain, free);
    hide Distinct, Top;
    assert chain[0] == Top(chain + free) by { TopOf(chain, free); }
  }

  lemma TopOf(chain: seq<nat>, free: seq<nat>)
    requires chain != []
    ensures Top(chain + free) == chain[0]
  {
  }

  lemma PushStep(s: State, t: nat)
    requires Inv(s) && Enabled(s, ReleaseCas(t, true))
    ensures Inv(Apply(s, ReleaseCas(t, true)))
  {
    hide Inv, Apply, FreeOk, SentinelOk, Mine, ThreadOk, Backed;
    PushFree(s, t);
    PushMine(s, t);
    PushBacked(s, t);
    Assemble(s, Apply(s, ReleaseCas(t, true)), t);
  }

  lemma PushFacts(s: State, t: nat)
    requires Inv(s) && Enabled(s, ReleaseCas(t, true))
    ensures var l := Local(s, t);
      ChainOk(t, l.chain, s.next, s.cut, s.place) && l.chain != [] && Leads(s.next, s.cut, Last(l.chain), s.head)
  {
    assert ThreadOk(s, t, Local(s, t));
    hide FreeOk, SentinelOk, ThreadsOk, BackedOk;
  }

  lemma PushFree(s: State, t: nat)
    requires Inv(s) && Enabled(s, ReleaseCas(t, true))
    ensures var s' := Apply(s, ReleaseCas(t, true));
      && FreeOk(s'.head, s'.next, s'.cut, s'.free, s'.place) && s'.tag == s'.version % TAGS
      && ThreadOk(s', t, Local(s', t))
  {
    hide FreeOk, SentinelOk, ThreadsOk, BackedOk, ChainOk;
    PushFacts(s, t);
    TagStep(s.version);
    Splice(s.head, s.next, s.cut, s.free, s.place, t, Local(s, t).chain);
  }

  lemma PushMine(s: State, t: nat)
    requires Inv(s) && Enabled(s, ReleaseCas(t, true))
    ensures Mine(s, Apply(s, ReleaseCas(t, true)), t)
    ensures SentinelOk(Apply(s, ReleaseCas(t, true)).next, Apply(s, ReleaseCas(t, true)).place)
  {
    hide FreeOk, BackedOk;
    PushFacts(s, t);
    ChainPlaces(t, Local(s, t).chain, s.next, s.cut, s.place);
    hide ThreadsOk, ChainOk, ThreadOk;
  }

  lemma ChainPlaces(t: nat, chain: seq<nat>, next: seq<nat>, cut: set<nat>, place: seq<Place>)
    requires ChainOk(t, chain, next, cut, place)
    ensures |next| == |place| && forall i :: 0 <= i < |place| && i in chain ==> place[i] == Chained(t)
  {
  }

  lemma PushBacked(s: State, t: nat)
    requires Inv(s) && Enabled(s, ReleaseCas(t, true))
    ensures var s' := Apply(s, ReleaseCas(t, true));
      forall i :: 0 <= i < |s'.place| && !Foreign(s'.place[i], t) ==> Backed(s', i, s'.place[i])
  {
    hide FreeOk, Distinct, ThreadsOk, SentinelOk;
    var s' := Apply(s, ReleaseCas(t, true));
    forall i | 0 <= i < |s'.place| && !Foreign(s'.place[i], t) ensures Backed(s', i, s'.place[i]) {
      assert Backed(s, i, s.place[i]);
    }
  }

  /** Every step keeps the invariant, a panicking one included. */
  lemma Preserve(s: State, step: Step)
    requires Inv(s) && Enabled(s, step) && NoWrap(s, step)
    ensures Inv(Apply(s, step))
  {
    hide Inv, Apply, Enabled, NoWrap;
    match step {
      case AcquireCas(t, ok) => if ok { PopStep(s, t); } else { NoteStep(s, step); }
      case MarkLeased(t) => MarkStep(s, t);
      case SwapNext(t) => if CutsLink(s, t) { CutStep(s, t); } else { SwapStep(s, t); }
      case Link(t) => LinkStep(s, t);
      case StoreTail(t) => TailStep(s, t);
      case ReleaseCas(t, ok) => if ok { PushStep(s, t); } else { NoteStep(s, step); }
      case _ => NoteStep(s, step);
    }
  }

  // -- Runs -----------------------------------------------------------------------------

  /** A new list over `n` indices, all free and chained in order. */
  ghost predicate Init(s: State, n: nat) {
    && 1 <= n <= LEASED && s.head == 0 && s.tag == 0 && s.version == 0
    && s.next == seq(n, i => if i + 1 < n then i + 1 else EMPTY)
    && s.free == seq(n, i => i) && s.place == seq(n, _ => InFree)
    && s.threads == map[] && s.cut == {}
  }

  ghost predicate Run(states: seq<State>, steps: seq<Step>, n: nat) {
    && |states| == |steps| + 1 && Init(states[0], n)
    && forall i :: 0 <= i < |steps| ==>
         Enabled(states[i], steps[i]) && NoWrap(states[i], steps[i]) && states[i + 1] == Apply(states[i], steps[i])
  }

  lemma InitOk(s: State, n: nat)
    requires Init(s, n)
    ensures Inv(s)
  {
    assert FreeOk(s.head, s.next, s.cut, s.free, s.place) by {
      InitFree(s, n);
    }
    hide FreeOk;
  }

  lemma InitFree(s: State, n: nat)
    requires Init(s, n)
    ensures FreeOk(s.head, s.next, s.cut, s.free, s.place)
  {
    forall k | 0 <= k < n ensures s.next[s.free[k]] == Top(s.free[k + 1..]) {
      assert k + 1 < n ==> s.free[k + 1..][0] == s.free[k + 1];
    }
    forall i | 0 <= i < n && s.place[i] == InFree ensures i in s.free {
      assert s.free[i] == i;
    }
  }

  lemma {:induction false} AlwaysInv(states: seq<State>, steps: seq<Step>, n: nat, i: nat)
    requires Run(states, steps, n) && i < |states|
    ensures Inv(states[i])
  {
    hide Inv, Apply, Init, NoWrap;
    if i == 0 {
      InitOk(states[0], n);
    } else {
      AlwaysInv(states, steps, n, i - 1);
      Preserve(states[i - 1], steps[i - 1]);
    }
  }

  /** The step that gives `h` back: a releaser swaps the sentinel out of its link. */
  predicate Releases(s: State, step: Step, h: nat) {
    step.SwapNext? && Local(s, step.t).Chaining? && Local(s, step.t).todo != [] && Local(s, step.t).todo[0] == h
  }

  lemma LeaseStep(s: State, step: Step, h: nat)
    requires Inv(s) && Enabled(s, step) && NoWrap(s, step) && h < |s.place| && s.place[h] == Leased
    requires !Releases(s, step, h)
    ensures h < |Apply(s, step).place| && Apply(s, step).place[h] == Leased
  {
    var t := step.t;
    assert t in s.threads ==> ThreadOk(s, t, Local(s, t));
    hide BackedOk, SentinelOk, ThreadsOk;
    if step.AcquireCas? && step.ok {
      PopReal(s, t);
    }
  }

  lemma {:induction false} LeaseKept(states: seq<State>, steps: seq<Step>, n: nat, i: nat, j: nat, h: nat)
    requires Run(states, steps, n) && i <= j < |states|
    requires h < |states[i].place| && states[i].place[h] == Leased
    requires forall k :: i <= k < j ==> !Releases(states[k], steps[k], h)
    ensures h < |states[j].place| && states[j].place[h] == Leased
  {
    hide Inv, Apply, Init, NoWrap, Releases;
    if i < j {
      assert Enabled(states[j - 1], steps[j - 1]) && states[j] == Apply(states[j - 1], steps[j - 1]);
      LeaseKept(states, steps, n, i, j - 1, h);
      AlwaysInv(states, steps, n, j - 1);
      LeaseStep(states[j - 1], steps[j - 1], h);
    }
  }

  lemma MarkedWas(s: State, t: nat)
    requires Inv(s) && Enabled(s, MarkLeased(t))
    ensures var h := Local(s, t).h;
      && h < |s.place| && s.place[h] == Popped(t)
      && (forall u :: Local(s, u) == Marking(h) ==> u == t)
      && h < |Apply(s, MarkLeased(t)).place| && Apply(s, MarkLeased(t)).place[h] == Leased
  {
    assert ThreadOk(s, t, Local(s, t));
    forall u | Local(s, u) == Marking(Local(s, t).h) ensures u == t {
      assert ThreadOk(s, u, Local(s, u));
    }
  }

  /**
   * No double lease. Between two acquisitions that return the same index there is a release of it,
   * in every interleaving of any number of threads, whatever releases panic on the way.
   */
  lemma NoDoubleLease(states: seq<State>, steps: seq<Step>, n: nat, i: nat, j: nat, t: nat, u: nat, h: nat)
    requires Run(states, steps, n) && i < j < |steps|
    requires steps[i] == MarkLeased(t) && Local(states[i], t) == Marking(h)
    requires steps[j] == MarkLeased(u) && Local(states[j], u) == Marking(h)
    ensures exists k :: i < k < j && Releases(states[k], steps[k], h)
  {
    hide Inv, Apply, Init, NoWrap, Releases;
    assert Enabled(states[i], steps[i]) && Enabled(states[j], steps[j]);
    assert states[i + 1] == Apply(states[i], steps[i]);
    AlwaysInv(states, steps, n, i);
    AlwaysInv(states, steps, n, j);
    MarkedWas(states[i], t);
    MarkedWas(states[j], u);
    if forall k :: i < k < j ==> !Releases(states[k], steps[k], h) {
      LeaseKept(states, steps, n, i + 1, j, h);
    }
  }

  /** A release panics exactly on an index that nobody holds at that moment. */
  lemma PanicIff(s: State, t: nat)
    requires Inv(s) && Enabled(s, SwapNext(t)) && Local(s, t).todo[0] < |s.place|
    ensures Local(Apply(s, SwapNext(t)), t).Panicked? <==> s.place[Local(s, t).todo[0]] != Leased
  {
    hide FreeOk, BackedOk, ThreadsOk;
  }

  /** The stack can be walked up to a cut: each link leads to the next free index, in range, none met twice. */
  lemma StackShape(s: State, k: nat)
    requires Inv(s) && k < |s.free|
    ensures s.head == s.free[0] && s.free[k] < |s.next|
    ensures Leads(s.next, s.cut, s.free[k], if k + 1 < |s.free| then s.free[k + 1] else EMPTY)
    ensures forall j :: 0 <= j < |s.free| && j != k ==> s.free[j] != s.free[k]
    ensures forall t :: s.free[k] !in HeldBy(Local(s, t))
  {
    hide BackedOk, SentinelOk, ThreadsOk, ThreadOk, HeldBy;
    forall t ensures s.free[k] !in HeldBy(Local(s, t)) {
      HeldOffStack(s, t, s.free[k]);
    }
  }

  lemma HeldOffStack(s: State, t: nat, i: nat)
    requires ThreadsOk(s) && i < |s.place| && s.place[i] == InFree
    ensures i !in HeldBy(Local(s, t))
  {
    assert t in s.threads ==> ThreadOk(s, t, Local(s, t));
  }

  /** A link is cut only by a panicking release of its index, and only the rest of a list is lost by it. */
  lemma {:induction false} CutByPanic(states: seq<State>, steps: seq<Step>, n: nat, i: nat, x: nat) returns (k: nat)
    requires Run(states, steps, n) && i < |states| && x in states[i].cut
    ensures k < i && steps[k].SwapNext? && CutsLink(states[k], steps[k].t) && Local(states[k], steps[k].t).todo[0] == x
  {
    assert i > 0;
    assert Enabled(states[i - 1], steps[i - 1]) && states[i] == Apply(states[i - 1], steps[i - 1]);
    if x in states[i - 1].cut {
      k := CutByPanic(states, steps, n, i - 1, x);
    } else {
      k := i - 1;
    }
  }

  // -- Progress -----------------------------------------------------------------------------

  /** These steps can be taken one after the other, with no other thread between them. */
  ghost predicate Alone(s: State, steps: seq<Step>, s': State)
    decreases |steps|
  {
    if steps == [] then s' == s
    else Enabled(s, steps[0]) && NoWrap(s, steps[0]) && Alone(Apply(s, steps[0]), steps[1..], s')
  }

  lemma {:induction false} AloneThen(s: State, xs: seq<Step>, m: State, ys: seq<Step>, s': State)
    requires Alone(s, xs, m) && Alone(m, ys, s')
    ensures Alone(s, xs + ys, s')
    decreases |xs|
  {
    hide Enabled, Apply, NoWrap;
    if xs == [] {
      assert xs + ys == ys;
    } else {
      assert (xs + ys)[1..] == xs[1..] + ys;
      AloneThen(Apply(s, xs[0]), xs[1..], m, ys, s');
    }
  }

  lemma AloneStep(s: State, step: Step)
    requires Enabled(s, step) && NoWrap(s, step)
    ensures Alone(s, [step], Apply(s, step))
  {
    hide Enabled, Apply, NoWrap;
    assert [step][1..] == [];
    assert Alone(Apply(s, step), [], Apply(s, step));
  }

  /** A thread that looks for an index gives up exactly when the stack is empty. */
  lemma EmptyIff(s: State, t: nat)
    requires Inv(s) && Enabled(s, LoadHead(t))
    ensures Local(Apply(s, LoadHead(t)), t).Idle? <==> s.free == []
  {
    hide SentinelOk, BackedOk, ThreadsOk;
    assert s.free != [] ==> s.free[0] < |s.next|;
  }

  /**
   * An acquisition that no other thread comes between leases the index on top of the stack and leaves the rest,
   * which is out of reach only where the link of that index was cut. Nothing else changes hands.
   */
  lemma AcquireAlone(s: State, t: nat) returns (s': State)
    requires Inv(s) && Local(s, t).Idle? && s.free != []
    ensures Alone(s, [LoadHead(t), LoadNext(t), AcquireCas(t, true), MarkLeased(t)], s') && Inv(s')
    ensures var h, rest := s.free[0], s.free[1..];
      h < |s.place| && var whole := h !in s.cut || s.next[h] == Top(rest);
      && s'.free == (if whole then rest else []) && |s'.place| == |s.place|
      && forall i :: 0 <= i < |s.place| ==>
           s'.place[i] == if i == h then Leased else if whole || i !in rest then s.place[i] else Lost
    ensures forall u :: Local(s', u) == Local(s, u)
  {
    hide Alone, Inv, Local, Put, AfterPop;
    var s1 := AcquireHead(s, t);
    var s2 := AcquireNext(s1, t);
    s' := AcquireSwap(s2, t, s);
    AloneThen(s, [LoadHead(t)], s1, [LoadNext(t)], s2);
    AloneThen(s, [LoadHead(t)] + [LoadNext(t)], s2, [AcquireCas(t, true), MarkLeased(t)], s');
    assert [LoadHead(t)] + [LoadNext(t)] + [AcquireCas(t, true), MarkLeased(t)] == [LoadHead(t), LoadNext(t), AcquireCas(t, true), MarkLeased(t)];
  }

  lemma AcquireNext(s: State, t: nat) returns (s': State)
    requires Inv(s) && s.free != [] && s.free[0] < |s.next| && Local(s, t) == SawHead(s.free[0], s.tag, s.version)
    ensures Alone(s, [LoadNext(t)], s') && Inv(s') && Local(s', t) == SawNext(s.head, s.tag, s.version, s.next[s.free[0]])
    ensures s' == s.(threads := s'.threads) && s.head == s.free[0] && forall u :: u != t ==> Local(s', u) == Local(s, u)
  {
    s' := Apply(s, LoadNext(t));
    AloneStep(s, LoadNext(t));
    Preserve(s, LoadNext(t));
    hide Alone, SentinelOk, BackedOk, ThreadsOk, NoWrap;
  }

  lemma AcquireHead(s: State, t: nat) returns (s': State)
    requires Inv(s) && Local(s, t).Idle? && s.free != []
    ensures Alone(s, [LoadHead(t)], s') && Inv(s') && Local(s', t) == SawHead(s.free[0], s.tag, s.version)
    ensures s' == s.(threads := s'.threads) && s.head == s.free[0] && forall u :: u != t ==> Local(s', u) == Local(s, u)
    ensures s.free[0] < |s.next| == |s.place|
  {
    s' := Apply(s, LoadHead(t));
    assert s.free[0] < |s.next|;
    AloneStep(s, LoadHead(t));
    Preserve(s, LoadHead(t));
    hide Alone, Inv, Enabled, NoWrap, BackedOk, ThreadsOk;
  }

  lemma AcquireSwap(s: State, t: nat, s0: State) returns (s': State)
    requires Inv(s) && s0.free != [] && s0.free[0] < |s0.next| && s.next == s0.next && s.place == s0.place && s.cut == s0.cut && s.free == s0.free
    requires Local(s, t) == SawNext(s.head, s.tag, s.version, s.next[s.free[0]]) && s.head == s.free[0] && Local(s0, t).Idle?
    requires forall u :: u != t ==> Local(s, u) == Local(s0, u)
    ensures Alone(s, [AcquireCas(t, true), MarkLeased(t)], s') && Inv(s')
    ensures var h, rest := s0.free[0], s0.free[1..];
      h < |s0.place| && var whole := h !in s0.cut || s0.next[h] == Top(rest);
      && s'.free == (if whole then rest else []) && |s'.place| == |s0.place|
      && forall i :: 0 <= i < |s0.place| ==>
           s'.place[i] == if i == h then Leased else if whole || i !in rest then s0.place[i] else Lost
    ensures forall u :: Local(s', u) == Local(s0, u)
  {
    hide Alone, Inv, Local;
    var m := PopAlone(s, t);
    s' := MarkAlone(m, t, s.free[0]);
    AloneThen(s, [AcquireCas(t, true)], m, [MarkLeased(t)], s');
    assert [AcquireCas(t, true)] + [MarkLeased(t)] == [AcquireCas(t, true), MarkLeased(t)];
  }

  lemma PopAlone(s: State, t: nat) returns (m: State)
    requires Inv(s) && s.free != [] && s.head == s.free[0] && Local(s, t).SawNext?
    requires s.free[0] < |s.next| && Local(s, t) == SawNext(s.head, s.tag, s.version, s.next[s.free[0]])
    ensures Alone(s, [AcquireCas(t, true)], m) && Inv(m) && Local(m, t) == Marking(s.free[0]) && s.free[0] < |s.place|
    ensures var h, rest := s.free[0], s.free[1..]; var whole := h !in s.cut || s.next[h] == Top(rest);
      && m.free == (if whole then rest else []) && |m.place| == |s.place|
      && forall i :: 0 <= i < |s.place| && i != h ==> m.place[i] == if whole || i !in rest then s.place[i] else Lost
    ensures forall u :: u != t ==> Local(m, u) == Local(s, u)
  {
    assert Leads(s.next, s.cut, s.free[0], Top(s.free[0 + 1..])) && |s.place| == |s.next|;
    m := Apply(s, AcquireCas(t, true));
    AloneStep(s, AcquireCas(t, true));
    Preserve(s, AcquireCas(t, true));
    hide Alone, FreeOk, SentinelOk, BackedOk, ThreadsOk, NoWrap, Put, Top;
  }

  lemma MarkAlone(m: State, t: nat, h: nat) returns (s': State)
    requires Inv(m) && Local(m, t) == Marking(h) && h < |m.place|
    ensures Alone(m, [MarkLeased(t)], s') && Inv(s') && Local(s', t).Idle? && s'.free == m.free && |s'.place| == |m.place|
    ensures forall i :: 0 <= i < |m.place| ==> s'.place[i] == if i == h then Leased else m.place[i]
    ensures forall u :: u != t ==> Local(s', u) == Local(m, u)
  {
    assert |m.place| == |m.next|;
    s' := Apply(m, MarkLeased(t));
    AloneStep(m, MarkLeased(t));
    Preserve(m, MarkLeased(t));
    hide Alone, FreeOk, SentinelOk, BackedOk, ThreadsOk, NoWrap;
  }

  /** A compare-and-swap that must fail does so because another thread has changed the head meanwhile. */
  lemma FailsByProgress(s: State, t: nat)
    requires Inv(s) && Local(s, t).SawNext? && s.version < Local(s, t).ver + TAGS
    ensures Enabled(s, AcquireCas(t, true)) <==> s.version == Local(s, t).ver
  {
    hide FreeOk, SentinelOk, BackedOk;
    assert t in s.threads && ThreadOk(s, t, s.threads[t]);
  }

  // -- Releasing, undisturbed ---------------------------------------------------------------

  /** The indices of a release that are in range; the others are skipped. */
  ghost function Kept(idx: seq<nat>, n: nat): seq<nat> {
    if idx == [] then [] else (if idx[0] < n then [idx[0]] else []) + Kept(idx[1..], n)
  }

  /** What linking changes: the places of these indices. */
  ghost predicate Linked(s: State, s': State, t: nat, idx: seq<nat>) {
    && s'.free == s.free && s'.version == s.version && s'.head == s.head && s'.cut == s.cut && |s'.next| == |s.next| && |s'.place| == |s.place|
    && (forall i :: 0 <= i < |s.place| ==> s'.place[i] == if i in idx then Chained(t) else s.place[i])
    && forall u :: u != t ==> Local(s', u) == Local(s, u)
  }

  lemma LinkedLeft(s: State, m: State, t: nat, own: seq<nat>, others: seq<nat>)
    requires Linked(s, m, t, own)
    requires forall k :: k in others ==> k < |s.place| && s.place[k] == Leased && k !in own
    ensures |m.next| == |s.next| && m.free == s.free && forall k :: k in others ==> k < |m.place| && m.place[k] == Leased
  {
    hide Local;
  }

  lemma LinkedThen(s: State, m: State, s': State, t: nat, a: seq<nat>, b: seq<nat>)
    requires Linked(s, m, t, a) && Linked(m, s', t, b)
    ensures Linked(s, s', t, a + b)
  {
    hide Local;
  }

  /** An index out of range is skipped, and one that is held goes to the end of the chain. */
  lemma SwapAlone(s: State, t: nat, i: nat, rest: seq<nat>, chain: seq<nat>) returns (m: State)
    requires Inv(s) && Local(s, t) == Chaining([i] + rest, chain) && (i < |s.next| ==> i < |s.place| && s.place[i] == Leased)
    ensures Alone(s, [SwapNext(t)], m) && Inv(m) && Linked(s, m, t, if i < |s.next| then [i] else [])
    ensures Local(m, t) == if i >= |s.next| then Chaining(rest, chain) else if chain == [] then Chaining(rest, [i]) else Linking(rest, chain, i)
  {
    assert |s.place| == |s.next|;
    assert i < |s.next| ==> s.next[i] == LEASED;
    assert ([i] + rest)[0] == i && ([i] + rest)[1..] == rest;
    m := Apply(s, SwapNext(t));
    AloneStep(s, SwapNext(t));
    Preserve(s, SwapNext(t));
    hide Alone, FreeOk, SentinelOk, BackedOk, ThreadsOk, NoWrap;
  }

  lemma LinkAlone(s: State, t: nat, i: nat, rest: seq<nat>, chain: seq<nat>) returns (m: State)
    requires Inv(s) && Local(s, t) == Linking(rest, chain, i)
    ensures Alone(s, [Link(t)], m) && Inv(m) && Linked(s, m, t, []) && Local(m, t) == Chaining(rest, chain + [i])
  {
    assert t in s.threads && ThreadOk(s, t, s.threads[t]);
    m := Apply(s, Link(t));
    AloneStep(s, Link(t));
    Preserve(s, Link(t));
    hide Alone, FreeOk, SentinelOk, BackedOk, ThreadsOk, NoWrap;
  }

  lemma LinkOne(s: State, t: nat, i: nat, rest: seq<nat>, chain: seq<nat>) returns (steps: seq<Step>, m: State)
    requires Inv(s) && Local(s, t) == Chaining([i] + rest, chain) && (i < |s.next| ==> i < |s.place| && s.place[i] == Leased)
    ensures Alone(s, steps, m) && Inv(m) && Linked(s, m, t, if i < |s.next| then [i] else [])
    ensures Local(m, t) == Chaining(rest, chain + if i < |s.next| then [i] else [])
  {
    hide Inv, Alone, Local, Linked;
    m := SwapAlone(s, t, i, rest, chain);
    steps := [SwapNext(t)];
    if i < |s.next| && chain != [] {
      var l := LinkAlone(m, t, i, rest, chain);
      AloneThen(s, steps, m, [Link(t)], l);
      LinkedThen(s, m, l, t, [i], []);
      assert [i] + [] == [i];
      steps, m := steps + [Link(t)], l;
    } else if i >= |s.next| {
      assert chain + [] == chain;
    } else {
      assert chain + [i] == [i];
    }
  }

  lemma KeptFirst(i: nat, rest: seq<nat>, n: nat)
    requires Distinct(Kept([i] + rest, n))
    ensures Kept([i] + rest, n) == (if i < n then [i] else []) + Kept(rest, n)
    ensures Distinct(Kept(rest, n)) && forall k :: k in Kept(rest, n) ==> k in Kept([i] + rest, n) && k != i
    ensures i < n ==> i in Kept([i] + rest, n)
    ensures forall k :: k in Kept(rest, n) ==> k < n
  {
    assert ([i] + rest)[1..] == rest;
    var own := if i < n then [i] else [];
    var all := own + Kept(rest, n);
    assert forall k :: 0 <= k < |Kept(rest, n)| ==> all[|own| + k] == Kept(rest, n)[k];
    KeptInRange(rest, n);
    if i < n {
      assert all[0] == i;
    }
  }

  lemma {:induction false} KeptInRange(idx: seq<nat>, n: nat)
    ensures forall k :: k in Kept(idx, n) ==> k < n
  {
    if idx != [] {
      KeptInRange(idx[1..], n);
    }
  }

  /** A thread links all that it releases into a chain of its own. */
  lemma {:induction false} ChainAlone(s: State, t: nat, todo: seq<nat>, chain: seq<nat>) returns (steps: seq<Step>, s': State)
    requires Inv(s) && Local(s, t) == Chaining(todo, chain) && Distinct(Kept(todo, |s.next|))
    requires forall i :: i in Kept(todo, |s.next|) ==> i < |s.place| && s.place[i] == Leased
    ensures Alone(s, steps, s') && Inv(s') && Local(s', t) == Chaining([], chain + Kept(todo, |s.next|))
    ensures Linked(s, s', t, Kept(todo, |s.next|))
    decreases |todo|, 1
  {
    hide Inv, Local;
    if todo == [] {
      steps, s' := [], s;
      assert chain + [] == chain;
    } else {
      hide Kept, Distinct, Alone, Linked;
      assert todo == [todo[0]] + todo[1..];
      steps, s' := ChainMore(s, t, todo[0], todo[1..], chain);
    }
  }

  lemma ChainMore(s: State, t: nat, i: nat, rest: seq<nat>, chain: seq<nat>) returns (steps: seq<Step>, s': State)
    requires Inv(s) && Local(s, t) == Chaining([i] + rest, chain) && Distinct(Kept([i] + rest, |s.next|))
    requires forall k :: k in Kept([i] + rest, |s.next|) ==> k < |s.place| && s.place[k] == Leased
    ensures Alone(s, steps, s') && Inv(s') && Local(s', t) == Chaining([], chain + Kept([i] + rest, |s.next|))
    ensures Linked(s, s', t, Kept([i] + rest, |s.next|))
    decreases |[i] + rest|, 0
  {
    hide Inv, Local, Kept, Distinct, Alone, Linked, Enabled, Apply, NoWrap;
    var n := |s.next|;
    KeptFirst(i, rest, n);
    var own := if i < n then [i] else [];
    var m;
    steps, m := LinkOne(s, t, i, rest, chain);
    LinkedLeft(s, m, t, own, Kept(rest, n));
    var more;
    more, s' := ChainAlone(m, t, rest, chain + own);
    AloneThen(s, steps, m, more, s');
    LinkedThen(s, m, s', t, own, Kept(rest, n));
    assert (chain + own) + Kept(rest, n) == chain + (own + Kept(rest, n));
    steps := steps + more;
  }

  lemma HeadAlone(s: State, t: nat, chain: seq<nat>) returns (s': State)
    requires Inv(s) && Local(s, t) == Chaining([], chain) && chain != []
    ensures Alone(s, [LoadHeadToRelease(t)], s') && Inv(s') && Local(s', t) == LoadedHead(chain, s.head, s.tag, s.version)
    ensures s' == s.(threads := s'.threads) && forall u :: u != t ==> Local(s', u) == Local(s, u)
  {
    s' := Apply(s, LoadHeadToRelease(t));
    AloneStep(s, LoadHeadToRelease(t));
    Preserve(s, LoadHeadToRelease(t));
    hide Alone, Inv, NoWrap;
  }

  lemma TailAlone(s: State, t: nat, chain: seq<nat>) returns (s': State)
    requires Inv(s) && chain != [] && Local(s, t) == LoadedHead(chain, s.head, s.tag, s.version)
    ensures Alone(s, [StoreTail(t)], s') && Inv(s') && Local(s', t) == StoredTail(chain, s.head, s.tag, s.version)
    ensures s' == s.(next := s'.next, threads := s'.threads) && forall u :: u != t ==> Local(s', u) == Local(s, u)
  {
    assert t in s.threads && ThreadOk(s, t, s.threads[t]);
    s' := Apply(s, StoreTail(t));
    AloneStep(s, StoreTail(t));
    Preserve(s, StoreTail(t));
    hide Alone, FreeOk, SentinelOk, BackedOk, ThreadsOk, NoWrap;
  }

  lemma SpliceAlone(s: State, t: nat, chain: seq<nat>) returns (s': State)
    requires Inv(s) && chain != [] && Local(s, t) == StoredTail(chain, s.head, s.tag, s.version)
    ensures Alone(s, [ReleaseCas(t, true)], s') && Inv(s') && Local(s', t).Idle?
    ensures s'.free == chain + s.free && |s'.place| == |s.place|
    ensures forall i :: 0 <= i < |s.place| ==> s'.place[i] == if i in chain then InFree else s.place[i]
    ensures forall u :: u != t ==> Local(s', u) == Local(s, u)
  {
    s' := Apply(s, ReleaseCas(t, true));
    AloneStep(s, ReleaseCas(t, true));
    Preserve(s, ReleaseCas(t, true));
    hide Alone, Inv, NoWrap;
  }

  /** A finished chain is pushed. */
  lemma PushAlone(s: State, t: nat, chain: seq<nat>) returns (s': State)
    requires Inv(s) && Local(s, t) == Chaining([], chain) && chain != []
    ensures Alone(s, [LoadHeadToRelease(t), StoreTail(t), ReleaseCas(t, true)], s') && Inv(s')
    ensures s'.free == chain + s.free && Local(s', t).Idle? && |s'.place| == |s.place|
    ensures forall i :: 0 <= i < |s.place| ==> s'.place[i] == if i in chain then InFree else s.place[i]
    ensures forall u :: u != t ==> Local(s', u) == Local(s, u)
  {
    hide Inv, Local, Alone;
    var a := HeadAlone(s, t, chain);
    var b := TailAlone(a, t, chain);
    s' := SpliceAlone(b, t, chain);
    AloneThen(s, [LoadHeadToRelease(t)], a, [StoreTail(t)], b);
    AloneThen(s, [LoadHeadToRelease(t)] + [StoreTail(t)], b, [ReleaseCas(t, true)], s');
    assert [LoadHeadToRelease(t)] + [StoreTail(t)] + [ReleaseCas(t, true)] == [LoadHeadToRelease(t), StoreTail(t), ReleaseCas(t, true)];
  }

  lemma StartAlone(s: State, t: nat, idx: seq<nat>) returns (s': State)
    requires Inv(s) && Local(s, t).Idle?
    ensures Alone(s, [StartRelease(t, idx)], s') && Inv(s') && Local(s', t) == Chaining(idx, [])
    ensures s' == s.(threads := s'.threads) && forall u :: u != t ==> Local(s', u) == Local(s, u)
  {
    s' := Apply(s, StartRelease(t, idx));
    AloneStep(s, StartRelease(t, idx));
    Preserve(s, StartRelease(t, idx));
    hide Alone, Inv, NoWrap;
  }

  lemma NothingAlone(s: State, t: nat) returns (s': State)
    requires Inv(s) && Local(s, t) == Chaining([], [])
    ensures Alone(s, [LoadHeadToRelease(t)], s') && Inv(s') && Local(s', t).Idle?
    ensures s' == s.(threads := s'.threads) && forall u :: u != t ==> Local(s', u) == Local(s, u)
  {
    s' := Apply(s, LoadHeadToRelease(t));
    AloneStep(s, LoadHeadToRelease(t));
    Preserve(s, LoadHeadToRelease(t));
    hide Alone, Inv, NoWrap;
  }

  /**
   * A release of held indices that no other thread comes between puts those in range on top of the stack, in
   * their order, and changes nothing else.
   */
  lemma ReleaseAlone(s: State, t: nat, idx: seq<nat>) returns (steps: seq<Step>, s': State)
    requires Inv(s) && Local(s, t).Idle? && Distinct(Kept(idx, |s.next|))
    requires forall i :: i in Kept(idx, |s.next|) ==> i < |s.place| && s.place[i] == Leased
    ensures steps != [] && steps[0] == StartRelease(t, idx) && Alone(s, steps, s') && Inv(s')
    ensures s'.free == Kept(idx, |s.next|) + s.free && |s'.place| == |s.place|
    ensures forall i :: 0 <= i < |s.place| ==> s'.place[i] == if i in Kept(idx, |s.next|) then InFree else s.place[i]
    ensures forall u :: Local(s', u) == Local(s, u)
  {
    hide Inv, Local, Alone, Kept, Distinct;
    var kept := Kept(idx, |s.next|);
    var a := StartAlone(s, t, idx);
    var more, b := ChainAlone(a, t, idx, []);
    assert [] + kept == kept;
    AloneThen(s, [StartRelease(t, idx)], a, more, b);
    steps := [StartRelease(t, idx)] + more;
    if kept == [] {
      s' := NothingAlone(b, t);
      AloneThen(s, steps, b, [LoadHeadToRelease(t)], s');
      steps := steps + [LoadHeadToRelease(t)];
      assert kept + s.free == s.free;
    } else {
      s' := PushAlone(b, t, kept);
      AloneThen(s, steps, b, [LoadHeadToRelease(t), StoreTail(t), ReleaseCas(t, true)], s');
      steps := steps + [LoadHeadToRelease(t), StoreTail(t), ReleaseCas(t, true)];
    }
  }
}
