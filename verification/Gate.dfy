/**
 * The reader gate, the snapshot pins and the recycling writer, as one machine of small steps.
 *
 * Any number of readers and one writer interleave. A reader bumps the counter of one stripe and one
 * of two buckets, loads roots, and later takes its count back. It picks the bucket from a phase it
 * may have read at any time, so here it picks either. The writer publishes trees, stamps what they
 * superseded with the phase two advances away, scans one stripe at a time, and reuses slots.
 * Snapshots pin the epoch of a commit; they are acquired, cloned and released by anyone.
 *
 * A root holds the slot of its tree; the machine names the tree itself, which memory determines.
 */
module Gate {
  import opened Options
  import opened Chunks
  import opened Trees
  import opened CTrees

  /** Where a slot is. Only a private or a free slot is ever written. */
  datatype Place =
    | Unused
    | Free
    | Private
    | Live(v: nat)
    | Logged
    | Pending(young: bool, stamp: nat, grace: nat)
    | Leaked

  datatype Reader = Reader(stripe: nat, bucket: nat, held: set<Tree>)

  datatype Pin = Pin(epoch: nat, trees: seq<Option<Tree>>)

  /** The guard: none, open, inside the commit's lock, committed, or poisoned for good. */
  datatype Mode = NoGuard | Open | Committing(epoch: nat, publish: bool) | Committed(prev: Option<nat>) | Poisoned

  datatype State = State(
    mem: Mem,
    place: map<Slot, Place>,
    roots: seq<Option<Tree>>,
    phase: nat,
    active: seq<seq<nat>>,
    /** Stripes of bucket `(phase + 1) % 2` that the running scan has found empty. */
    scan: Option<nat>,
    readers: map<nat, Reader>,
    pins: map<nat, Pin>,
    latest: nat,
    cachedMin: nat,
    minSeen: nat,
    epoch: nat,
    mode: Mode,
    /** The stamp the guard puts on what it retires, and the slots first used by this guard. */
    stamp: nat,
    young: set<Slot>,
    /** The roots each commit published, by its epoch. */
    history: map<nat, seq<Option<Tree>>>
  )

  datatype Step =
    | Enter(r: nat, stripe: nat, bucket: nat)
    | Load(r: nat, v: nat)
    | Exit(r: nat)
    | Acquire(p: nat)
    | Clone(from: nat, p: nat)
    | Release(p: nat, min: nat)
    | Tick
    | OpenGuard
    | Bump(s: Slot)
    | Reuse(s: Slot)
    | Write(s: Slot, node: Node)
    | Publish(v: nat, t: Tree)
    | LogPrivate(s: Slot)
    | Stamp
    | Coalesce(s: Slot, stamp: nat, grace: nat)
    | ReadMin
    | BeginScan
    | ScanStripe
    | Advance
    | GiveUp
    | Recycle(s: Slot, link: Option<nat>)
    | LockAdvance(publish: bool)
    | Swap(p: nat, min: nat)
    | ReleasePrev(min: nat)
    | CloseGuard
    | Poison

  function At(place: map<Slot, Place>, x: Slot): Place {
    if x in place then place[x] else Unused
  }

  /** May a reader or a snapshot still reach a slot that is there? */
  predicate Reachable(p: Place) {
    p.Live? || p.Logged? || p.Pending? || p.Leaked?
  }

  function Stamped(place: map<Slot, Place>, young: set<Slot>, stamp: nat, grace: nat): map<Slot, Place> {
    map x | x in place :: if place[x] == Logged then Pending(x in young, stamp, grace) else place[x]
  }

  /** One root store: the new tree is live, and what only the old tree used is logged. */
  ghost function Published(place: map<Slot, Place>, v: nat, old_: set<Slot>, t: Tree): map<Slot, Place> {
    map x | x in place :: if x in Slots(t) then Live(v) else if x in old_ then Logged else place[x]
  }

  /** What a closed guard still had in hand belongs to nobody. */
  function Abandoned(place: map<Slot, Place>): map<Slot, Place> {
    map x | x in place :: if place[x] == Private || place[x] == Logged then Leaked else place[x]
  }

  predicate IsMin(pins: map<nat, Pin>, min: nat) {
    && (exists p :: p in pins && pins[p].epoch == min)
    && forall p :: p in pins ==> min <= pins[p].epoch
  }

  predicate Working(m: Mode) {
    m.Open? || m.Committed?
  }

  ghost predicate Enabled(s: State, step: Step) {
    match step
    case Enter(r, i, b) => r !in s.readers && i < |s.active| && b < 2
    case Load(r, v) => r in s.readers && v < |s.roots|
    case Exit(r) => r in s.readers
    case Acquire(p) => p !in s.pins && s.latest in s.pins && !s.mode.Committing?
    case Clone(from, p) => from in s.pins && p !in s.pins
    case Release(p, min) => p in s.pins && p != s.latest && s.mode != Committed(Some(p)) && IsMin(s.pins - {p}, min)
    case Tick => true
    case OpenGuard => s.mode.NoGuard?
    case Bump(x) => s.mode.Open? && s.scan.None? && At(s.place, x).Unused?
    case Reuse(x) => s.mode.Open? && s.scan.None? && At(s.place, x).Free?
    case Write(x, _) => s.mode.Open? && s.scan.None? && At(s.place, x).Private?
    case Publish(v, t) =>
      && s.mode.Open? && s.scan.None? && v < |s.roots| && Stored(s.mem, t)
      && forall x :: x in Slots(t) ==> At(s.place, x).Private? || At(s.place, x) == Live(v)
    case LogPrivate(x) => s.mode.Open? && s.scan.None? && At(s.place, x).Private?
    case Stamp => Working(s.mode) && s.scan.None?
    case Coalesce(x, stamp, grace) =>
      && Working(s.mode) && s.scan.None? && At(s.place, x).Pending?
      && At(s.place, x).stamp <= stamp && At(s.place, x).grace <= grace <= s.phase + 2
    case ReadMin => true
    case BeginScan => Working(s.mode) && s.scan.None?
    case ScanStripe => s.scan.Some? && s.scan.value < |s.active| && |s.active[s.scan.value]| == 2
                       && s.active[s.scan.value][(s.phase + 1) % 2] == 0
    case Advance => s.scan == Some(|s.active|)
    case GiveUp => s.scan.Some?
    case Recycle(x, _) =>
      && Working(s.mode) && s.scan.None? && At(s.place, x).Pending? && At(s.place, x).grace <= s.phase
      && (At(s.place, x).young || At(s.place, x).stamp <= s.minSeen)
    case LockAdvance(_) => s.mode.Open? && s.scan.None?
    case Swap(p, min) =>
      && s.mode.Committing?
      && (if s.mode.publish then p !in s.pins && IsMin(s.pins[p := Pin(s.mode.epoch, s.roots)], min) else min == s.cachedMin)
    case ReleasePrev(min) =>
      && s.mode.Committed? && s.mode.prev.Some? && s.mode.prev.value in s.pins && s.mode.prev.value != s.latest
      && IsMin(s.pins - {s.mode.prev.value}, min)
    case CloseGuard => s.mode == Committed(None) && s.scan.None?
    case Poison => s.mode.Open?
  }

  /** Add `d` to one counter. */
  function Bumped(active: seq<seq<nat>>, i: nat, b: nat, up: bool): seq<seq<nat>> {
    if i < |active| && b < |active[i]| && (up || active[i][b] > 0)
    then active[i := active[i][b := if up then active[i][b] + 1 else active[i][b] - 1]]
    else active
  }

  ghost function Apply(s: State, step: Step): State
    requires Enabled(s, step)
  {
    match step
    case Enter(r, i, b) => s.(readers := s.readers[r := Reader(i, b, {})], active := Bumped(s.active, i, b, true))
    case Load(r, v) =>
      var reader := s.readers[r];
      if s.roots[v].None? then s else s.(readers := s.readers[r := reader.(held := reader.held + {s.roots[v].value})])
    case Exit(r) =>
      s.(readers := s.readers - {r}, active := Bumped(s.active, s.readers[r].stripe, s.readers[r].bucket, false))
    case Acquire(p) => s.(pins := s.pins[p := s.pins[s.latest]])
    case Clone(from, p) => s.(pins := s.pins[p := s.pins[from]])
    case Release(p, min) => s.(pins := s.pins - {p}, cachedMin := min)
    case Tick => s.(epoch := s.epoch + 1)
    case OpenGuard => s.(mode := Open, stamp := s.epoch + 1, young := {})
    case Bump(x) => s.(place := s.place[x := Private], young := s.young + {x})
    case Reuse(x) => s.(place := s.place[x := Private])
    case Write(x, node) => s.(mem := s.mem[x := node])
    case Publish(v, t) => s.(roots := s.roots[v := Some(t)], place := Published(s.place, v, RSlots(s.roots[v]), t))
    case LogPrivate(x) => s.(place := s.place[x := Logged])
    case Stamp => s.(place := Stamped(s.place, s.young, s.stamp, s.phase + 2))
    case Coalesce(x, stamp, grace) => s.(place := s.place[x := Pending(s.place[x].young, stamp, grace)])
    case ReadMin => s.(minSeen := s.cachedMin)
    case BeginScan => s.(scan := Some(0))
    case ScanStripe => s.(scan := Some(s.scan.value + 1))
    case Advance => s.(phase := s.phase + 1, scan := None)
    case GiveUp => s.(scan := None)
    case Recycle(x, link) => s.(place := s.place[x := Free], mem := s.mem[x := FreeLink(link)])
    case LockAdvance(publish) =>
      s.(epoch := s.epoch + 1, mode := Committing(s.epoch + 1, publish),
         history := if publish then s.history[s.epoch + 1 := s.roots] else s.history)
    case Swap(p, min) =>
      if s.mode.publish
      then s.(pins := s.pins[p := Pin(s.mode.epoch, s.roots)], latest := p, cachedMin := min,
              stamp := s.mode.epoch, mode := Committed(Some(s.latest)))
      else s.(stamp := s.mode.epoch, mode := Committed(None))
    case ReleasePrev(min) => s.(pins := s.pins - {s.mode.prev.value}, cachedMin := min, mode := Committed(None))
    case CloseGuard => s.(mode := NoGuard, place := Abandoned(s.place))
    case Poison => s.(mode := Poisoned, scan := None, place := Abandoned(s.place))
  }

  // -- The invariant ------------------------------------------------------------------

  /**
   * Where a slot may be while a reader of bucket `b` holds it. `passed` says the running scan has
   * already looked at this reader's counter.
   */
  predicate GraceOk(p: Place, phase: nat, b: nat, passed: bool) {
    && Reachable(p)
    && (p.Pending? ==> !passed && p.grace > phase && (p.grace == phase + 1 ==> b == p.grace % 2))
  }

  predicate Passed(r: Reader, phase: nat, scan: Option<nat>) {
    scan.Some? && r.bucket == (phase + 1) % 2 && r.stripe < scan.value
  }

  ghost predicate HeldOk(mem: Mem, place: map<Slot, Place>, t: Tree, phase: nat, b: nat, passed: bool) {
    Stored(mem, t) && forall x :: x in Slots(t) ==> GraceOk(At(place, x), phase, b, passed)
  }

  ghost predicate ReadersOk(mem: Mem, place: map<Slot, Place>, readers: map<nat, Reader>, phase: nat, scan: Option<nat>) {
    forall r, t :: r in readers && t in readers[r].held ==>
      HeldOk(mem, place, t, phase, readers[r].bucket, Passed(readers[r], phase, scan))
  }

  ghost predicate LiveOk(mem: Mem, place: map<Slot, Place>, t: Tree, v: nat) {
    Stored(mem, t) && forall x :: x in Slots(t) ==> At(place, x) == Live(v)
  }

  ghost predicate RootsOk(mem: Mem, place: map<Slot, Place>, roots: seq<Option<Tree>>) {
    forall v :: 0 <= v < |roots| && roots[v].Some? ==> LiveOk(mem, place, roots[v].value, v)
  }

  /** Where a slot may be while a snapshot of `epoch` reaches it. */
  predicate PinPlace(p: Place, isYoung: bool, epoch: nat, stamp: nat, open: bool) {
    && Reachable(p) && (open ==> !isYoung)
    && (p.Logged? ==> !isYoung && epoch < stamp)
    && (p.Pending? ==> !p.young && epoch < p.stamp)
  }

  ghost predicate PinnedOk(mem: Mem, place: map<Slot, Place>, young: set<Slot>, t: Tree, epoch: nat, stamp: nat, open: bool) {
    Stored(mem, t) && forall x :: x in Slots(t) ==> PinPlace(At(place, x), x in young, epoch, stamp, open)
  }

  ghost predicate PinOk(mem: Mem, place: map<Slot, Place>, young: set<Slot>, pin: Pin, stamp: nat, open: bool) {
    forall v :: 0 <= v < |pin.trees| && pin.trees[v].Some? ==>
      PinnedOk(mem, place, young, pin.trees[v].value, pin.epoch, stamp, open)
  }

  ghost predicate PinsOk(mem: Mem, place: map<Slot, Place>, young: set<Slot>, pins: map<nat, Pin>, stamp: nat, open: bool) {
    forall p :: p in pins ==> PinOk(mem, place, young, pins[p], stamp, open)
  }

  ghost function Inside(readers: map<nat, Reader>, i: nat, b: nat): set<nat> {
    set r | r in readers && readers[r].stripe == i && readers[r].bucket == b
  }

  ghost predicate Counted(active: seq<seq<nat>>, readers: map<nat, Reader>) {
    && (forall i :: 0 <= i < |active| ==> |active[i]| == 2)
    && (forall i, b :: 0 <= i < |active| && 0 <= b < 2 ==> active[i][b] == |Inside(readers, i, b)|)
    && forall r :: r in readers ==> readers[r].stripe < |active| && readers[r].bucket < 2
  }

  predicate Uncommitted(m: Mode) {
    m.Open? || m.Committing?
  }

  ghost predicate EpochsOk(s: State) {
    && s.latest in s.pins && IsMin(s.pins, s.cachedMin) && s.minSeen <= s.cachedMin
    && (forall p :: p in s.pins ==> s.pins[p].epoch <= s.epoch)
    && (s.mode.Open? ==> s.stamp <= s.epoch + 1 && forall p :: p in s.pins ==> s.pins[p].epoch < s.stamp)
    && (s.mode.Committing? ==> s.stamp <= s.mode.epoch <= s.epoch && forall p :: p in s.pins ==> s.pins[p].epoch < s.stamp)
    && (s.mode.Committed? && s.mode.prev.Some? ==> s.mode.prev.value in s.pins && s.mode.prev.value != s.latest)
  }

  /** The latest snapshot is the newest commit, but for one inside the lock. */
  ghost predicate HistoryOk(s: State) {
    && s.latest in s.pins
    && (forall p :: p in s.pins ==> s.pins[p].epoch in s.history && s.pins[p].trees == s.history[s.pins[p].epoch])
    && (forall e :: e in s.history ==>
          e <= s.pins[s.latest].epoch || (s.mode.Committing? && s.mode.publish && e == s.mode.epoch))
    && (s.mode.Committing? && s.mode.publish ==> s.mode.epoch in s.history && s.history[s.mode.epoch] == s.roots)
    && (forall p :: p in s.pins ==> s.pins[p].epoch <= s.pins[s.latest].epoch)
  }

  ghost predicate ScanOk(s: State) {
    s.scan.Some? ==> Working(s.mode) && s.scan.value <= |s.active|
  }

  ghost predicate Inv(s: State) {
    && RootsOk(s.mem, s.place, s.roots)
    && ReadersOk(s.mem, s.place, s.readers, s.phase, s.scan)
    && PinsOk(s.mem, s.place, s.young, s.pins, s.stamp, Uncommitted(s.mode))
    && Counted(s.active, s.readers)
    && EpochsOk(s) && HistoryOk(s) && ScanOk(s)
  }

  // -- Slots that move, and memory that is written ----------------------------------------

  lemma KeepReaders(mem: Mem, place: map<Slot, Place>, place': map<Slot, Place>, readers: map<nat, Reader>, phase: nat)
    requires ReadersOk(mem, place, readers, phase, None)
    requires forall x, b :: GraceOk(At(place, x), phase, b, false) ==> GraceOk(At(place', x), phase, b, false)
    ensures ReadersOk(mem, place', readers, phase, None)
  {
    hide GraceOk, At;
  }

  lemma KeepPins(mem: Mem, place: map<Slot, Place>, place': map<Slot, Place>, young: set<Slot>, young': set<Slot>,
                 pins: map<nat, Pin>, stamp: nat, stamp': nat, open: bool, open': bool)
    requires PinsOk(mem, place, young, pins, stamp, open)
    requires forall p, x :: p in pins && PinPlace(At(place, x), x in young, pins[p].epoch, stamp, open) ==>
      PinPlace(At(place', x), x in young', pins[p].epoch, stamp', open')
    ensures PinsOk(mem, place', young', pins, stamp', open')
  {
    hide PinPlace, At;
    forall p | p in pins ensures PinOk(mem, place', young', pins[p], stamp', open') {
      assert PinOk(mem, place, young, pins[p], stamp, open);
    }
  }

  lemma KeepRoots(mem: Mem, place: map<Slot, Place>, place': map<Slot, Place>, roots: seq<Option<Tree>>)
    requires RootsOk(mem, place, roots)
    requires forall x :: At(place, x).Live? ==> At(place', x) == At(place, x)
    ensures RootsOk(mem, place', roots)
  {
    hide At;
  }

  lemma Untouched(mem: Mem, x: Slot, node: Node, t: Tree)
    requires Stored(mem, t) && x !in Slots(t)
    ensures Stored(mem[x := node], t)
  {
    StoredSlots(mem, t);
    StoredFrame(mem, mem[x := node], t);
  }

  /** Writing a slot that nobody can reach disturbs no published, held or pinned tree. */
  lemma WriteRoots(mem: Mem, place: map<Slot, Place>, roots: seq<Option<Tree>>, x: Slot, node: Node)
    requires RootsOk(mem, place, roots) && !Reachable(At(place, x))
    ensures RootsOk(mem[x := node], place, roots)
  {
    forall v | 0 <= v < |roots| && roots[v].Some? ensures LiveOk(mem[x := node], place, roots[v].value, v) {
      Untouched(mem, x, node, roots[v].value);
    }
  }

  lemma WriteReaders(mem: Mem, place: map<Slot, Place>, readers: map<nat, Reader>, phase: nat, scan: Option<nat>, x: Slot, node: Node)
    requires ReadersOk(mem, place, readers, phase, scan) && !Reachable(At(place, x))
    ensures ReadersOk(mem[x := node], place, readers, phase, scan)
  {
    forall r, t | r in readers && t in readers[r].held
      ensures HeldOk(mem[x := node], place, t, phase, readers[r].bucket, Passed(readers[r], phase, scan))
    {
      assert HeldOk(mem, place, t, phase, readers[r].bucket, Passed(readers[r], phase, scan));
      Untouched(mem, x, node, t);
    }
  }

  lemma WritePins(mem: Mem, place: map<Slot, Place>, young: set<Slot>, pins: map<nat, Pin>, stamp: nat, open: bool, x: Slot, node: Node)
    requires PinsOk(mem, place, young, pins, stamp, open) && !Reachable(At(place, x))
    ensures PinsOk(mem[x := node], place, young, pins, stamp, open)
  {
    forall p, v | p in pins && 0 <= v < |pins[p].trees| && pins[p].trees[v].Some?
      ensures PinnedOk(mem[x := node], place, young, pins[p].trees[v].value, pins[p].epoch, stamp, open)
    {
      assert PinOk(mem, place, young, pins[p], stamp, open);
      assert PinnedOk(mem, place, young, pins[p].trees[v].value, pins[p].epoch, stamp, open);
      Untouched(mem, x, node, pins[p].trees[v].value);
    }
  }

  // -- Steps of the readers ---------------------------------------------------------------

  lemma InsideAdd(readers: map<nat, Reader>, r: nat, reader: Reader, i: nat, b: nat)
    requires r !in readers
    ensures |Inside(readers[r := reader], i, b)| ==
      |Inside(readers, i, b)| + (if reader.stripe == i && reader.bucket == b then 1 else 0)
  {
    var after := readers[r := reader];
    if reader.stripe == i && reader.bucket == b {
      assert Inside(after, i, b) == Inside(readers, i, b) + {r};
    } else {
      assert Inside(after, i, b) == Inside(readers, i, b);
    }
  }

  lemma InsideRemove(readers: map<nat, Reader>, r: nat, i: nat, b: nat)
    requires r in readers
    ensures |Inside(readers, i, b)| ==
      |Inside(readers - {r}, i, b)| + (if readers[r].stripe == i && readers[r].bucket == b then 1 else 0)
  {
    var after := readers - {r};
    if readers[r].stripe == i && readers[r].bucket == b {
      assert Inside(readers, i, b) == Inside(after, i, b) + {r};
    } else {
      assert Inside(after, i, b) == Inside(readers, i, b);
    }
  }

  lemma CountEnter(active: seq<seq<nat>>, readers: map<nat, Reader>, r: nat, i: nat, b: nat)
    requires Counted(active, readers) && r !in readers && i < |active| && b < 2
    ensures Counted(Bumped(active, i, b, true), readers[r := Reader(i, b, {})])
  {
    hide Inside;
    var after := Bumped(active, i, b, true);
    forall j, c | 0 <= j < |after| && 0 <= c < 2
      ensures after[j][c] == |Inside(readers[r := Reader(i, b, {})], j, c)|
    {
      InsideAdd(readers, r, Reader(i, b, {}), j, c);
    }
  }

  lemma CountExit(active: seq<seq<nat>>, readers: map<nat, Reader>, r: nat)
    requires Counted(active, readers) && r in readers
    ensures Counted(Bumped(active, readers[r].stripe, readers[r].bucket, false), readers - {r})
  {
    hide Inside;
    var i, b := readers[r].stripe, readers[r].bucket;
    InsideRemove(readers, r, i, b);
    var after := Bumped(active, i, b, false);
    forall j, c | 0 <= j < |after| && 0 <= c < 2
      ensures after[j][c] == |Inside(readers - {r}, j, c)|
    {
      InsideRemove(readers, r, j, c);
    }
  }

  lemma CountLoad(active: seq<seq<nat>>, readers: map<nat, Reader>, r: nat, held: set<Tree>)
    requires Counted(active, readers) && r in readers
    ensures Counted(active, readers[r := readers[r].(held := held)])
  {
    forall j, c | 0 <= j < |active| && 0 <= c < 2
      ensures active[j][c] == |Inside(readers[r := readers[r].(held := held)], j, c)|
    {
      assert Inside(readers[r := readers[r].(held := held)], j, c) == Inside(readers, j, c);
    }
  }

  /** A root that a reader loads now is live, whatever the scan has already passed. */
  lemma LoadOk(s: State, r: nat, v: nat)
    requires Inv(s) && Enabled(s, Load(r, v))
    ensures ReadersOk(s.mem, s.place, Apply(s, Load(r, v)).readers, s.phase, s.scan)
  {
    if s.roots[v].Some? {
      var t := s.roots[v].value;
      assert LiveOk(s.mem, s.place, t, v);
    }
  }

  // -- Advancing the phase ------------------------------------------------------------------

  /** No reader is in a bucket whose every counter the scan found at zero. */
  lemma ScanNext(s: State)
    requires Inv(s) && Enabled(s, ScanStripe)
    ensures ReadersOk(s.mem, s.place, s.readers, s.phase, Some(s.scan.value + 1))
  {
    var k, b := s.scan.value, (s.phase + 1) % 2;
    assert |Inside(s.readers, k, b)| == 0;
    forall r | r in s.readers ensures Passed(s.readers[r], s.phase, Some(k + 1)) == Passed(s.readers[r], s.phase, s.scan) {
      assert r !in Inside(s.readers, k, b);
    }
  }

  lemma GraceAdvance(p: Place, phase: nat, b: nat, passed: bool)
    requires GraceOk(p, phase, b, passed) && b < 2 && (b == (phase + 1) % 2 ==> passed)
    ensures GraceOk(p, phase + 1, b, false)
  {
  }

  /** Both buckets have drained since a slot was unpublished once the phase is two past its stamp. */
  lemma AdvanceOk(s: State)
    requires Inv(s) && Enabled(s, Advance)
    ensures ReadersOk(s.mem, s.place, s.readers, s.phase + 1, None)
  {
    hide GraceOk;
    forall r, t | r in s.readers && t in s.readers[r].held
      ensures HeldOk(s.mem, s.place, t, s.phase + 1, s.readers[r].bucket, Passed(s.readers[r], s.phase + 1, None))
    {
      var b, passed := s.readers[r].bucket, Passed(s.readers[r], s.phase, s.scan);
      assert HeldOk(s.mem, s.place, t, s.phase, b, passed);
      forall x | x in Slots(t) ensures GraceOk(At(s.place, x), s.phase + 1, b, false) {
        GraceAdvance(At(s.place, x), s.phase, b, passed);
      }
    }
  }

  lemma DropScan(mem: Mem, place: map<Slot, Place>, readers: map<nat, Reader>, phase: nat, scan: Option<nat>)
    requires ReadersOk(mem, place, readers, phase, scan)
    ensures ReadersOk(mem, place, readers, phase, None)
  {
    forall r, t | r in readers && t in readers[r].held
      ensures HeldOk(mem, place, t, phase, readers[r].bucket, false)
    {
      assert HeldOk(mem, place, t, phase, readers[r].bucket, Passed(readers[r], phase, scan));
    }
  }

  lemma StartScan(mem: Mem, place: map<Slot, Place>, readers: map<nat, Reader>, phase: nat)
    requires ReadersOk(mem, place, readers, phase, None)
    ensures ReadersOk(mem, place, readers, phase, Some(0))
  {
    hide GraceOk;
  }

  // -- Steps of the writer on slots -----------------------------------------------------------

  /** A slot taken from the allocator, or logged without ever having been published. */
  lemma TakeSlot(s: State, x: Slot, to: Place, young: set<Slot>)
    requires Inv(s) && s.mode.Open? && s.scan.None? && !Reachable(At(s.place, x))
    requires to == Private || to == Logged
    requires s.young <= young && young <= s.young + {x}
    ensures RootsOk(s.mem, s.place[x := to], s.roots)
    ensures ReadersOk(s.mem, s.place[x := to], s.readers, s.phase, s.scan)
    ensures PinsOk(s.mem, s.place[x := to], young, s.pins, s.stamp, true)
  {
    var place := s.place[x := to];
    assert forall y :: y != x ==> At(place, y) == At(s.place, y);
    KeepRoots(s.mem, s.place, place, s.roots);
    KeepReaders(s.mem, s.place, place, s.readers, s.phase);
    KeepPins(s.mem, s.place, place, s.young, young, s.pins, s.stamp, s.stamp, true, true);
  }

  lemma StampOk(s: State)
    requires Inv(s) && Enabled(s, Stamp)
    ensures var place := Stamped(s.place, s.young, s.stamp, s.phase + 2);
      && RootsOk(s.mem, place, s.roots)
      && ReadersOk(s.mem, place, s.readers, s.phase, None)
      && PinsOk(s.mem, place, s.young, s.pins, s.stamp, Uncommitted(s.mode))
  {
    var place := Stamped(s.place, s.young, s.stamp, s.phase + 2);
    hide RootsOk, ReadersOk, PinsOk;
    KeepRoots(s.mem, s.place, place, s.roots);
    KeepReaders(s.mem, s.place, place, s.readers, s.phase);
    KeepPins(s.mem, s.place, place, s.young, s.young, s.pins, s.stamp, s.stamp, Uncommitted(s.mode), Uncommitted(s.mode));
  }

  /** A batch that joins one with later requirements takes them over. */
  lemma CoalesceOk(s: State, x: Slot, stamp: nat, grace: nat)
    requires Inv(s) && Enabled(s, Coalesce(x, stamp, grace))
    ensures var place := s.place[x := Pending(s.place[x].young, stamp, grace)];
      && RootsOk(s.mem, place, s.roots)
      && ReadersOk(s.mem, place, s.readers, s.phase, None)
      && PinsOk(s.mem, place, s.young, s.pins, s.stamp, Uncommitted(s.mode))
  {
    var place := s.place[x := Pending(s.place[x].young, stamp, grace)];
    hide RootsOk, ReadersOk, PinsOk;
    assert forall y :: y != x ==> At(place, y) == At(s.place, y);
    KeepRoots(s.mem, s.place, place, s.roots);
    KeepReaders(s.mem, s.place, place, s.readers, s.phase);
    KeepPins(s.mem, s.place, place, s.young, s.young, s.pins, s.stamp, s.stamp, Uncommitted(s.mode), Uncommitted(s.mode));
  }

  /** Nobody reaches a slot whose grace has passed and whose pins are gone: it may be freed and written. */
  lemma RecycleOk(s: State, x: Slot, node: Node)
    requires Inv(s) && Enabled(s, Recycle(x, None))
    ensures var place, mem := s.place[x := Free], s.mem[x := node];
      && RootsOk(mem, place, s.roots)
      && ReadersOk(mem, place, s.readers, s.phase, None)
      && PinsOk(mem, place, s.young, s.pins, s.stamp, Uncommitted(s.mode))
  {
    var place := s.place[x := Free];
    hide RootsOk, ReadersOk, PinsOk;
    assert forall y :: y != x ==> At(place, y) == At(s.place, y);
    KeepRoots(s.mem, s.place, place, s.roots);
    KeepReaders(s.mem, s.place, place, s.readers, s.phase);
    KeepPins(s.mem, s.place, place, s.young, s.young, s.pins, s.stamp, s.stamp, Uncommitted(s.mode), Uncommitted(s.mode));
    WriteRoots(s.mem, place, s.roots, x, node);
    WriteReaders(s.mem, place, s.readers, s.phase, None, x, node);
    WritePins(s.mem, place, s.young, s.pins, s.stamp, Uncommitted(s.mode), x, node);
  }

  lemma AbandonOk(s: State)
    requires RootsOk(s.mem, s.place, s.roots) && ReadersOk(s.mem, s.place, s.readers, s.phase, None)
    requires PinsOk(s.mem, s.place, s.young, s.pins, s.stamp, Uncommitted(s.mode))
    ensures var place := Abandoned(s.place);
      && RootsOk(s.mem, place, s.roots)
      && ReadersOk(s.mem, place, s.readers, s.phase, None)
      && PinsOk(s.mem, place, s.young, s.pins, s.stamp, false)
  {
    var place := Abandoned(s.place);
    hide RootsOk, ReadersOk, PinsOk;
    KeepRoots(s.mem, s.place, place, s.roots);
    KeepReaders(s.mem, s.place, place, s.readers, s.phase);
    KeepPins(s.mem, s.place, place, s.young, s.young, s.pins, s.stamp, s.stamp, Uncommitted(s.mode), false);
  }

  /** A root store makes a tree live; whoever held the old one keeps it. */
  lemma PublishOk(s: State, v: nat, t: Tree)
    requires Inv(s) && Enabled(s, Publish(v, t))
    ensures var place := Published(s.place, v, RSlots(s.roots[v]), t);
      && RootsOk(s.mem, place, s.roots[v := Some(t)])
      && ReadersOk(s.mem, place, s.readers, s.phase, None)
      && PinsOk(s.mem, place, s.young, s.pins, s.stamp, true)
  {
    var place := Published(s.place, v, RSlots(s.roots[v]), t);
    PublishRoots(s, v, t);
    hide RootsOk, ReadersOk, PinsOk;
    PublishPlaces(s, v, t);
    KeepReaders(s.mem, s.place, place, s.readers, s.phase);
    KeepPins(s.mem, s.place, place, s.young, s.young, s.pins, s.stamp, s.stamp, true, true);
  }

  lemma PublishPlaces(s: State, v: nat, t: Tree)
    requires Inv(s) && Enabled(s, Publish(v, t))
    ensures forall x :: At(s.place, x).Live? && At(s.place, x) != Live(v) ==>
      At(Published(s.place, v, RSlots(s.roots[v]), t), x) == At(s.place, x)
    ensures forall x :: Reachable(At(s.place, x)) ==>
      At(Published(s.place, v, RSlots(s.roots[v]), t), x) in {At(s.place, x), Live(v), Logged}
    ensures forall x :: At(s.place, x).Pending? ==> At(Published(s.place, v, RSlots(s.roots[v]), t), x) == At(s.place, x)
    ensures forall x :: At(Published(s.place, v, RSlots(s.roots[v]), t), x) == Logged ==>
      At(s.place, x) == Logged || At(s.place, x) == Live(v)
  {
    hide ReadersOk, PinsOk;
    if s.roots[v].Some? {
      assert LiveOk(s.mem, s.place, s.roots[v].value, v);
    }
  }

  lemma PublishRoots(s: State, v: nat, t: Tree)
    requires Inv(s) && Enabled(s, Publish(v, t))
    ensures RootsOk(s.mem, Published(s.place, v, RSlots(s.roots[v]), t), s.roots[v := Some(t)])
  {
    hide ReadersOk, PinsOk;
    var place := Published(s.place, v, RSlots(s.roots[v]), t);
    PublishPlaces(s, v, t);
    var roots := s.roots[v := Some(t)];
    forall w | 0 <= w < |roots| && roots[w].Some?
      ensures LiveOk(s.mem, place, roots[w].value, w)
    {
      if w != v {
        assert LiveOk(s.mem, s.place, s.roots[w].value, w);
      }
    }
  }

  // -- Snapshots --------------------------------------------------------------------------------

  /** The roots of a commit are live, so the new snapshot reaches nothing that is logged or pending. */
  lemma SwapOk(s: State, p: nat)
    requires Inv(s) && s.mode.Committing?
    ensures PinsOk(s.mem, s.place, s.young, s.pins[p := Pin(s.mode.epoch, s.roots)], s.mode.epoch, false)
    ensures PinsOk(s.mem, s.place, s.young, s.pins, s.mode.epoch, false)
  {
    var e := s.mode.epoch;
    KeepPins(s.mem, s.place, s.place, s.young, s.young, s.pins, s.stamp, e, true, false);
    assert PinOk(s.mem, s.place, s.young, Pin(e, s.roots), e, false) by {
      forall v | 0 <= v < |s.roots| && s.roots[v].Some?
        ensures PinnedOk(s.mem, s.place, s.young, s.roots[v].value, e, e, false)
      {
        assert LiveOk(s.mem, s.place, s.roots[v].value, v);
      }
    }
  }

  lemma OpenOk(s: State)
    requires Inv(s) && s.mode.NoGuard?
    ensures PinsOk(s.mem, s.place, {}, s.pins, s.epoch + 1, true)
  {
    KeepPins(s.mem, s.place, s.place, s.young, {}, s.pins, s.stamp, s.epoch + 1, false, true);
  }

  /** A pin copied from a live one is no lower than the lowest. */
  lemma PinCopied(s: State, from: nat, p: nat)
    requires Inv(s) && from in s.pins && p !in s.pins
    ensures var s' := s.(pins := s.pins[p := s.pins[from]]);
      && EpochsOk(s') && HistoryOk(s')
      && PinsOk(s.mem, s.place, s.young, s'.pins, s.stamp, Uncommitted(s.mode))
  {
    hide RootsOk, ReadersOk, PinOk, Counted;
    var pins := s.pins[p := s.pins[from]];
    assert forall q :: q in s.pins ==> q in pins && pins[q] == s.pins[q];
  }

  lemma PinDropped(s: State, p: nat, min: nat, mode: Mode)
    requires Inv(s) && p in s.pins && p != s.latest && IsMin(s.pins - {p}, min)
    requires mode == s.mode || (s.mode.Committed? && mode == Committed(None))
    requires mode != Committed(Some(p))
    ensures var s' := s.(pins := s.pins - {p}, cachedMin := min, mode := mode);
      && EpochsOk(s') && HistoryOk(s')
      && PinsOk(s.mem, s.place, s.young, s'.pins, s.stamp, Uncommitted(mode))
  {
    hide RootsOk, ReadersOk, PinOk, Counted;
    var pins := s.pins - {p};
    assert forall q :: q in pins ==> q in s.pins && pins[q] == s.pins[q];
  }

  /** The clock moves inside the lock; the snapshot that goes with it is not out yet. */
  lemma LockEpochs(s: State, publish: bool)
    requires Inv(s) && Enabled(s, LockAdvance(publish))
    ensures EpochsOk(Apply(s, LockAdvance(publish))) && HistoryOk(Apply(s, LockAdvance(publish)))
  {
    hide RootsOk, ReadersOk, PinsOk, Counted;
  }

  lemma SwapEpochs(s: State, p: nat, min: nat)
    requires Inv(s) && Enabled(s, Swap(p, min))
    ensures EpochsOk(Apply(s, Swap(p, min))) && HistoryOk(Apply(s, Swap(p, min)))
  {
    hide RootsOk, ReadersOk, PinsOk, Counted;
    var s' := Apply(s, Swap(p, min));
    if s.mode.publish {
      assert forall q :: q in s.pins ==> q in s'.pins && s'.pins[q] == s.pins[q];
      assert s.pins[s.latest].epoch < s.mode.epoch;
    }
  }

  /** Steps that move no slot and touch no pin. */
  lemma ReaderStep(s: State, step: Step)
    requires Inv(s) && Enabled(s, step)
    requires step.Enter? || step.Load? || step.Exit?
    ensures Inv(Apply(s, step))
  {
    hide RootsOk, PinsOk, HeldOk, Counted, EpochsOk, HistoryOk;
    match step
    case Enter(r, i, b) =>
      CountEnter(s.active, s.readers, r, i, b);
      assert |Bumped(s.active, i, b, true)| == |s.active|;
      FrameEpochs(s, Apply(s, step));
    case Load(r, v) =>
      LoadOk(s, r, v);
      if s.roots[v].Some? {
        CountLoad(s.active, s.readers, r, s.readers[r].held + {s.roots[v].value});
      }
      FrameEpochs(s, Apply(s, step));
    case Exit(r) =>
      CountExit(s.active, s.readers, r);
      assert |Bumped(s.active, s.readers[r].stripe, s.readers[r].bucket, false)| == |s.active|;
      FrameEpochs(s, Apply(s, step));
  }

  /** What the epochs and the history are about did not change. */
  lemma FrameEpochs(s: State, s': State)
    requires EpochsOk(s) && HistoryOk(s)
    requires s'.pins == s.pins && s'.latest == s.latest && s'.cachedMin == s.cachedMin && s'.minSeen == s.minSeen
    requires s'.epoch >= s.epoch && s'.stamp == s.stamp && s'.history == s.history
    requires (s'.mode == s.mode && (s'.roots == s.roots || s.mode.Open?))
          || (!s.mode.Committing? && (s'.mode.NoGuard? || s'.mode.Poisoned?))
    ensures EpochsOk(s') && HistoryOk(s')
  {
  }

  lemma AllocStep(s: State, step: Step)
    requires Inv(s) && Enabled(s, step)
    requires step.Bump? || step.Reuse? || step.Write? || step.Publish? || step.LogPrivate?
    ensures Inv(Apply(s, step))
  {
    hide RootsOk, ReadersOk, PinsOk, Counted, EpochsOk, HistoryOk;
    FrameEpochs(s, Apply(s, step));
    match step
    case Bump(x) => TakeSlot(s, x, Private, s.young + {x});
    case Reuse(x) => TakeSlot(s, x, Private, s.young);
    case Write(x, node) =>
      WriteRoots(s.mem, s.place, s.roots, x, node);
      WriteReaders(s.mem, s.place, s.readers, s.phase, s.scan, x, node);
      WritePins(s.mem, s.place, s.young, s.pins, s.stamp, true, x, node);
    case Publish(v, t) => PublishOk(s, v, t);
    case LogPrivate(x) => TakeSlot(s, x, Logged, s.young);
  }

  lemma RetireStep(s: State, step: Step)
    requires Inv(s) && Enabled(s, step)
    requires step.Stamp? || step.Coalesce? || step.Recycle?
    ensures Inv(Apply(s, step))
  {
    hide RootsOk, ReadersOk, PinsOk, Counted, EpochsOk, HistoryOk;
    FrameEpochs(s, Apply(s, step));
    match step
    case Stamp => StampOk(s);
    case Coalesce(x, stamp, grace) => CoalesceOk(s, x, stamp, grace);
    case Recycle(x, link) => RecycleOk(s, x, FreeLink(link));
  }

  lemma CloseStep(s: State, step: Step)
    requires Inv(s) && Enabled(s, step)
    requires step.CloseGuard? || step.Poison?
    ensures Inv(Apply(s, step))
  {
    hide RootsOk, ReadersOk, PinsOk, Counted, EpochsOk, HistoryOk;
    FrameEpochs(s, Apply(s, step));
    DropScan(s.mem, s.place, s.readers, s.phase, s.scan);
    AbandonOk(s);
  }

  lemma GateStep(s: State, step: Step)
    requires Inv(s) && Enabled(s, step)
    requires step.BeginScan? || step.ScanStripe? || step.Advance? || step.GiveUp? || step.Tick?
    ensures Inv(Apply(s, step))
  {
    hide RootsOk, ReadersOk, PinsOk, Counted, HistoryOk, EpochsOk;
    FrameEpochs(s, Apply(s, step));
    match step
    case BeginScan => StartScan(s.mem, s.place, s.readers, s.phase);
    case ScanStripe => ScanNext(s);
    case Advance => AdvanceOk(s);
    case GiveUp => DropScan(s.mem, s.place, s.readers, s.phase, s.scan);
    case Tick =>
  }

  lemma ReadMinStep(s: State)
    requires Inv(s)
    ensures Inv(Apply(s, ReadMin))
  {
    hide RootsOk, ReadersOk, PinsOk, Counted;
  }

  lemma PinStep(s: State, step: Step)
    requires Inv(s) && Enabled(s, step)
    requires step.Acquire? || step.Clone? || step.Release? || step.ReleasePrev?
    ensures Inv(Apply(s, step))
  {
    match step
    case Acquire(p) => PinCopied(s, s.latest, p);
    case Clone(from, p) => PinCopied(s, from, p);
    case Release(p, min) => PinDropped(s, p, min, s.mode);
    case ReleasePrev(min) => PinDropped(s, s.mode.prev.value, min, Committed(None));
    hide RootsOk, ReadersOk, PinsOk, Counted, HistoryOk, EpochsOk;
  }

  lemma CommitStep(s: State, step: Step)
    requires Inv(s) && Enabled(s, step)
    requires step.LockAdvance? || step.Swap? || step.OpenGuard?
    ensures Inv(Apply(s, step))
  {
    hide RootsOk, ReadersOk, PinsOk, Counted, HistoryOk, EpochsOk;
    match step
    case Swap(p, min) =>
      SwapOk(s, p);
      SwapEpochs(s, p, min);
    case LockAdvance(publish) => LockEpochs(s, publish);
    case OpenGuard =>
      OpenOk(s);
      OpenEpochs(s);
  }

  lemma OpenEpochs(s: State)
    requires Inv(s) && s.mode.NoGuard?
    ensures EpochsOk(Apply(s, OpenGuard)) && HistoryOk(Apply(s, OpenGuard))
  {
    hide RootsOk, ReadersOk, PinsOk, Counted;
  }

  /** Every step keeps the invariant. */
  lemma Preserve(s: State, step: Step)
    requires Inv(s) && Enabled(s, step)
    ensures Inv(Apply(s, step))
  {
    hide Inv, Apply, Enabled;
    match step {
      case Enter(_, _, _) => ReaderStep(s, step);
      case Load(_, _) => ReaderStep(s, step);
      case Exit(_) => ReaderStep(s, step);
      case Acquire(_) => PinStep(s, step);
      case Clone(_, _) => PinStep(s, step);
      case Release(_, _) => PinStep(s, step);
      case ReleasePrev(_) => PinStep(s, step);
      case LockAdvance(_) => CommitStep(s, step);
      case Swap(_, _) => CommitStep(s, step);
      case OpenGuard => CommitStep(s, step);
      case ReadMin => ReadMinStep(s);
      case Stamp => RetireStep(s, step);
      case Coalesce(_, _, _) => RetireStep(s, step);
      case Recycle(_, _) => RetireStep(s, step);
      case CloseGuard => CloseStep(s, step);
      case Poison => CloseStep(s, step);
      case Bump(_) => AllocStep(s, step);
      case Reuse(_) => AllocStep(s, step);
      case Write(_, _) => AllocStep(s, step);
      case Publish(_, _) => AllocStep(s, step);
      case LogPrivate(_) => AllocStep(s, step);
      case _ => GateStep(s, step);
    }
  }

  // -- Runs -----------------------------------------------------------------------------------

  /** A new graph: nothing allocated, no reader, and the graph's own pin of its empty snapshot. */
  ghost predicate Init(s: State) {
    && s.place == map[] && s.readers == map[] && s.mode.NoGuard? && s.scan.None?
    && (forall v :: 0 <= v < |s.roots| ==> s.roots[v].None?)
    && (forall i :: 0 <= i < |s.active| ==> s.active[i] == [0, 0])
    && s.pins == map[s.latest := Pin(s.epoch, s.roots)] && s.history == map[s.epoch := s.roots]
    && s.cachedMin == s.epoch && s.minSeen == 0
  }

  ghost predicate Run(states: seq<State>, steps: seq<Step>) {
    && |states| == |steps| + 1 && Init(states[0])
    && forall i :: 0 <= i < |steps| ==> Enabled(states[i], steps[i]) && states[i + 1] == Apply(states[i], steps[i])
  }

  lemma InitOk(s: State)
    requires Init(s)
    ensures Inv(s)
  {
    assert forall i, b :: Inside(s.readers, i, b) == {};
    assert s.latest in s.pins && s.pins[s.latest].epoch == s.cachedMin;
  }

  lemma {:induction false} AlwaysInv(states: seq<State>, steps: seq<Step>, i: nat)
    requires Run(states, steps) && i < |states|
    ensures Inv(states[i])
  {
    hide Inv, Enabled, Apply, Init;
    if i == 0 {
      InitOk(states[0]);
    } else {
      AlwaysInv(states, steps, i - 1);
      Preserve(states[i - 1], steps[i - 1]);
    }
  }

  /** What no single step takes away. */
  lemma StepKeepsHeld(s: State, step: Step, r: nat)
    requires Enabled(s, step) && r in s.readers && r in Apply(s, step).readers
    ensures s.readers[r].held <= Apply(s, step).readers[r].held
  {
    hide Stored, Slots, IsMin;
  }

  lemma StepKeepsPin(s: State, step: Step, p: nat)
    requires Enabled(s, step) && p in s.pins && p in Apply(s, step).pins
    ensures Apply(s, step).pins[p] == s.pins[p]
  {
    hide Stored, Slots, IsMin;
  }

  lemma StepKeepsHistory(s: State, step: Step, e: nat)
    requires Enabled(s, step) && e in s.history && e <= s.epoch
    ensures e in Apply(s, step).history && Apply(s, step).history[e] == s.history[e]
  {
    hide Stored, Slots, IsMin;
  }

  lemma HistoryBelow(s: State, e: nat)
    requires Inv(s) && e in s.history
    ensures e <= s.epoch
  {
    hide RootsOk, ReadersOk, PinsOk, Counted, IsMin;
  }

  /** The lowest pinned epoch never falls: pins are only added where one already is, or at a new commit. */
  lemma MinStep(s: State, step: Step)
    requires Inv(s) && Enabled(s, step)
    ensures s.cachedMin <= Apply(s, step).cachedMin
  {
    hide RootsOk, ReadersOk, PinsOk, Counted, HistoryOk, Stored;
  }

  lemma {:induction false} KeepsHeld(states: seq<State>, steps: seq<Step>, i: nat, j: nat, r: nat)
    requires Run(states, steps) && i <= j < |states|
    requires forall k :: i <= k <= j ==> r in states[k].readers
    ensures states[i].readers[r].held <= states[j].readers[r].held
  {
    hide Inv, Enabled, Apply, Init;
    if i < j {
      KeepsHeld(states, steps, i, j - 1, r);
      assert states[j] == Apply(states[j - 1], steps[j - 1]);
      StepKeepsHeld(states[j - 1], steps[j - 1], r);
    }
  }

  lemma HeldStored(s: State, r: nat, t: Tree)
    requires Inv(s) && r in s.readers && t in s.readers[r].held
    ensures Stored(s.mem, t)
    ensures forall x :: x in Slots(t) ==> Reachable(At(s.place, x))
  {
    hide RootsOk, PinsOk, Counted, HistoryOk, EpochsOk;
    assert HeldOk(s.mem, s.place, t, s.phase, s.readers[r].bucket, Passed(s.readers[r], s.phase, s.scan));
  }

  /**
   * Grace safety. In every run, as long as a reader stays inside the gate, each tree it has loaded
   * lies in memory node for node as it did, and none of its slots is free or being rewritten.
   */
  lemma GraceSafety(states: seq<State>, steps: seq<Step>, i: nat, j: nat, r: nat, t: Tree)
    requires Run(states, steps) && i <= j < |states|
    requires forall k :: i <= k <= j ==> r in states[k].readers
    requires t in states[i].readers[r].held
    ensures Stored(states[j].mem, t)
    ensures forall x :: x in Slots(t) ==> Reachable(At(states[j].place, x))
  {
    hide Inv, Enabled, Apply, Init;
    KeepsHeld(states, steps, i, j, r);
    AlwaysInv(states, steps, j);
    HeldStored(states[j], r, t);
  }

  lemma {:induction false} KeepsPin(states: seq<State>, steps: seq<Step>, i: nat, j: nat, p: nat)
    requires Run(states, steps) && i <= j < |states|
    requires forall k :: i <= k <= j ==> p in states[k].pins
    ensures states[i].pins[p] == states[j].pins[p]
  {
    hide Inv, Enabled, Apply, Init;
    if i < j {
      KeepsPin(states, steps, i, j - 1, p);
      assert states[j] == Apply(states[j - 1], steps[j - 1]);
      StepKeepsPin(states[j - 1], steps[j - 1], p);
    }
  }

  lemma {:induction false} KeepsHistory(states: seq<State>, steps: seq<Step>, i: nat, j: nat, e: nat)
    requires Run(states, steps) && i <= j < |states| && e in states[i].history
    ensures e in states[j].history && states[j].history[e] == states[i].history[e]
  {
    hide Inv, Enabled, Apply, Init;
    if i < j {
      KeepsHistory(states, steps, i, j - 1, e);
      AlwaysInv(states, steps, j - 1);
      HistoryBelow(states[j - 1], e);
      StepKeepsHistory(states[j - 1], steps[j - 1], e);
    }
  }

  lemma PinStored(s: State, p: nat, v: nat)
    requires Inv(s) && p in s.pins && v < |s.pins[p].trees| && s.pins[p].trees[v].Some?
    ensures Stored(s.mem, s.pins[p].trees[v].value)
    ensures forall x :: x in Slots(s.pins[p].trees[v].value) ==> Reachable(At(s.place, x))
  {
    hide RootsOk, ReadersOk, Counted, HistoryOk, EpochsOk;
    assert PinOk(s.mem, s.place, s.young, s.pins[p], s.stamp, Uncommitted(s.mode));
    assert PinnedOk(s.mem, s.place, s.young, s.pins[p].trees[v].value, s.pins[p].epoch, s.stamp, Uncommitted(s.mode));
  }

  lemma PinIsCommit(s: State, p: nat)
    requires Inv(s) && p in s.pins
    ensures s.pins[p].epoch in s.history && s.pins[p].trees == s.history[s.pins[p].epoch]
  {
    hide RootsOk, ReadersOk, PinsOk, Counted, EpochsOk;
  }

  /**
   * Snapshot isolation. Until it is released, a pinned snapshot names the roots of its own commit, and
   * every tree under them lies unchanged in memory, whatever guards insert, retire or recycle.
   */
  lemma SnapshotIsolation(states: seq<State>, steps: seq<Step>, i: nat, j: nat, p: nat, v: nat)
    requires Run(states, steps) && i <= j < |states|
    requires forall k :: i <= k <= j ==> p in states[k].pins
    requires v < |states[i].pins[p].trees| && states[i].pins[p].trees[v].Some?
    ensures states[j].pins[p] == states[i].pins[p]
    ensures states[i].pins[p].epoch in states[i].history
    ensures states[i].pins[p].trees == states[i].history[states[i].pins[p].epoch]
    ensures Stored(states[j].mem, states[i].pins[p].trees[v].value)
  {
    hide Inv, Enabled, Apply, Init, Stored;
    KeepsPin(states, steps, i, j, p);
    AlwaysInv(states, steps, i);
    AlwaysInv(states, steps, j);
    PinIsCommit(states[i], p);
    PinStored(states[j], p, v);
  }

  /** The minimum pinned epoch that a writer may have read earlier is never above the present one. */
  lemma {:induction false} MinPinnedMonotone(states: seq<State>, steps: seq<Step>, i: nat, j: nat)
    requires Run(states, steps) && i <= j < |states|
    ensures states[i].cachedMin <= states[j].cachedMin
  {
    hide Inv, Enabled, Apply, Init;
    if i < j {
      MinPinnedMonotone(states, steps, i, j - 1);
      AlwaysInv(states, steps, j - 1);
      MinStep(states[j - 1], steps[j - 1]);
    }
  }

  lemma AcquireNewest(s: State, p: nat, e: nat)
    requires Inv(s) && Enabled(s, Acquire(p)) && e in s.history
    ensures Apply(s, Acquire(p)).pins[p].epoch >= e
  {
    hide RootsOk, ReadersOk, PinsOk, Counted, EpochsOk;
  }

  /**
   * Once a commit has moved the clock to `e`, a snapshot acquired later is that commit or a newer one,
   * and holds exactly the roots its commit published.
   */
  lemma AcquireAfterEpoch(states: seq<State>, steps: seq<Step>, i: nat, j: nat, p: nat, e: nat)
    requires Run(states, steps) && i <= j < |steps| && e in states[i].history && steps[j] == Acquire(p)
    ensures p in states[j + 1].pins && states[j + 1].pins[p].epoch >= e
    ensures var pin := states[j + 1].pins[p]; pin.epoch in states[j + 1].history && pin.trees == states[j + 1].history[pin.epoch]
  {
    hide Inv, Init;
    KeepsHistory(states, steps, i, j, e);
    AlwaysInv(states, steps, j);
    AlwaysInv(states, steps, j + 1);
    AcquireNewest(states[j], p, e);
    PinIsCommit(states[j + 1], p);
  }

  /** The commit that moves the clock to `e` records the live roots under it. */
  lemma CommitRecords(s: State)
    requires Inv(s) && Enabled(s, LockAdvance(true))
    ensures var s' := Apply(s, LockAdvance(true));
      s'.epoch == s.epoch + 1 && s'.epoch !in s.history && s'.epoch in s'.history && s'.history[s'.epoch] == s.roots
  {
    hide RootsOk, ReadersOk, PinsOk, Counted;
  }

  /** When a slot is freed, no reader inside the gate and no pinned snapshot reaches it. */
  lemma RecycleUnobserved(s: State, x: Slot, link: Option<nat>)
    requires Inv(s) && Enabled(s, Recycle(x, link))
    ensures forall r, t :: r in s.readers && t in s.readers[r].held ==> x !in Slots(t)
    ensures forall p, v :: p in s.pins && 0 <= v < |s.pins[p].trees| && s.pins[p].trees[v].Some? ==>
      x !in Slots(s.pins[p].trees[v].value)
  {
    var s' := Apply(s, Recycle(x, link));
    RetireStep(s, Recycle(x, link));
    forall r, t | r in s.readers && t in s.readers[r].held ensures x !in Slots(t) {
      HeldStored(s', r, t);
    }
    forall p, v | p in s.pins && 0 <= v < |s.pins[p].trees| && s.pins[p].trees[v].Some?
      ensures x !in Slots(s.pins[p].trees[v].value)
    {
      PinStored(s', p, v);
    }
  }

  // -- Progress -----------------------------------------------------------------------------

  /** These steps can be taken one after the other, with nothing between them. */
  ghost predicate Alone(s: State, steps: seq<Step>, s': State)
    decreases |steps|
  {
    if steps == [] then s' == s else Enabled(s, steps[0]) && Alone(Apply(s, steps[0]), steps[1..], s')
  }

  lemma {:induction false} AloneThen(s: State, xs: seq<Step>, m: State, ys: seq<Step>, s': State)
    requires Alone(s, xs, m) && Alone(m, ys, s')
    ensures Alone(s, xs + ys, s')
    decreases |xs|
  {
    hide Enabled, Apply;
    if xs == [] {
      assert xs + ys == ys;
    } else {
      assert (xs + ys)[1..] == xs[1..] + ys;
      AloneThen(Apply(s, xs[0]), xs[1..], m, ys, s');
    }
  }

  lemma AloneNext(s: State, xs: seq<Step>, m: State, step: Step)
    requires Alone(s, xs, m) && Enabled(m, step)
    ensures Alone(s, xs + [step], Apply(m, step))
  {
    hide Enabled, Apply;
    assert Alone(Apply(m, step), [step][1..], Apply(m, step));
    AloneThen(s, xs, m, [step], Apply(m, step));
  }

  lemma NoSteps(s: State)
    ensures Alone(s, [], s)
  {
  }

  /** At any moment a reader can enter at any stripe, load a root and hold exactly the live tree, and leave again. */
  lemma ReaderAlone(s: State, r: nat, stripe: nat, bucket: nat, v: nat)
    requires Inv(s) && r !in s.readers && stripe < |s.active| && bucket < 2 && v < |s.roots| && s.roots[v].Some?
    ensures Enabled(s, Enter(r, stripe, bucket))
    ensures var a := Apply(s, Enter(r, stripe, bucket));
      && a.active == s.active[stripe := s.active[stripe][bucket := s.active[stripe][bucket] + 1]] && Enabled(a, Load(r, v))
      && Apply(a, Load(r, v)).readers == s.readers[r := Reader(stripe, bucket, {s.roots[v].value})]
      && Enabled(Apply(a, Load(r, v)), Exit(r)) && Apply(Apply(a, Load(r, v)), Exit(r)) == s
  {
    hide RootsOk, ReadersOk, PinsOk, EpochsOk, HistoryOk;
    var a := Apply(s, Enter(r, stripe, bucket));
    var b := Apply(a, Load(r, v));
    var c := Apply(b, Exit(r));
    assert |s.active[stripe]| == 2;
    assert c.readers == s.readers;
    assert c.active[stripe] == s.active[stripe];
    assert c.active == s.active;
  }

  /** A root store in full: which tree is live, and where every slot is then. */
  lemma PublishMeans(s: State, v: nat, t: Tree)
    requires Inv(s) && Enabled(s, Publish(v, t))
    ensures var s' := Apply(s, Publish(v, t)); s'.mem == s.mem && s'.pins == s.pins && s'.readers == s.readers && s'.roots == s.roots[v := Some(t)]
    ensures forall x :: x in Slots(t) ==> At(Apply(s, Publish(v, t)).place, x) == Live(v)
    ensures s.roots[v].Some? ==>
      forall x :: x in Slots(s.roots[v].value) && x !in Slots(t) ==> At(Apply(s, Publish(v, t)).place, x) == Logged
    ensures forall x :: x !in Slots(t) && (s.roots[v].Some? ==> x !in Slots(s.roots[v].value)) ==>
      At(Apply(s, Publish(v, t)).place, x) == At(s.place, x)
  {
    hide ReadersOk, PinsOk, Stored;
    if s.roots[v].Some? {
      assert LiveOk(s.mem, s.place, s.roots[v].value, v);
    }
  }

  /** An open guard can take any slot that is free or was never used, write a leaf there and publish it. */
  lemma LeafAlone(s: State, v: nat, x: Slot, c: Chunk) returns (steps: seq<Step>, s': State)
    requires Inv(s) && s.mode.Open? && s.scan.None? && v < |s.roots| && x.ChunkSlot? && (At(s.place, x).Unused? || At(s.place, x).Free?)
    ensures Alone(s, steps, s') && s'.roots == s.roots[v := Some(Leaf(x, c))] && s'.mem == s.mem[x := ChunkNode(c)]
    ensures At(s'.place, x) == Live(v) && (x in s'.young <==> At(s.place, x).Unused? || x in s.young)
    ensures s'.pins == s.pins && s'.readers == s.readers && s'.phase == s.phase && s'.mode == s.mode
  {
    hide Inv, Alone;
    NoSteps(s);
    var take := if At(s.place, x).Unused? then Bump(x) else Reuse(x);
    var a := Apply(s, take);
    AloneNext(s, [], s, take);
    var b := Apply(a, Write(x, ChunkNode(c)));
    AloneNext(s, [] + [take], a, Write(x, ChunkNode(c)));
    s' := Apply(b, Publish(v, Leaf(x, c)));
    AloneNext(s, [] + [take] + [Write(x, ChunkNode(c))], b, Publish(v, Leaf(x, c)));
    steps := [] + [take] + [Write(x, ChunkNode(c))] + [Publish(v, Leaf(x, c))];
  }

  /** Outside a commit's lock anyone can pin the latest snapshot, share a pin, and release what they pinned. */
  lemma SnapshotAlone(s: State, p: nat, q: nat)
    requires Inv(s) && !s.mode.Committing? && p !in s.pins && q !in s.pins && p != q && s.mode != Committed(Some(p)) && s.mode != Committed(Some(q))
    ensures Enabled(s, Acquire(p)) && Apply(s, Acquire(p)) == s.(pins := s.pins[p := s.pins[s.latest]])
    ensures var a := Apply(s, Acquire(p));
      Enabled(a, Clone(p, q)) && Apply(a, Clone(p, q)) == s.(pins := s.pins[p := s.pins[s.latest]][q := s.pins[s.latest]])
    ensures var b := Apply(Apply(s, Acquire(p)), Clone(p, q));
      Enabled(b, Release(p, s.cachedMin)) && Apply(b, Release(p, s.cachedMin)) == s.(pins := s.pins[q := s.pins[s.latest]])
  {
    hide RootsOk, ReadersOk, PinsOk, Counted, HistoryOk;
    var b := Apply(Apply(s, Acquire(p)), Clone(p, q));
    assert b.pins - {p} == s.pins[q := s.pins[s.latest]];
    var m :| m in s.pins && s.pins[m].epoch == s.cachedMin;
    assert m in b.pins - {p} && (b.pins - {p})[m].epoch == s.cachedMin;
  }

  lemma {:induction false} MinExists(pins: map<nat, Pin>) returns (min: nat)
    requires pins != map[]
    ensures IsMin(pins, min)
    decreases |pins|
  {
    var p :| p in pins;
    var rest := pins - {p};
    if rest == map[] {
      min := pins[p].epoch;
      assert forall q :: q in pins && q != p ==> q in rest;
    } else {
      var low := MinExists(rest);
      min := if low < pins[p].epoch then low else pins[p].epoch;
      assert forall q :: q in pins && q != p ==> q in rest && rest[q] == pins[q];
    }
  }

  lemma SwapAlone(s: State, p: nat) returns (s': State)
    requires EpochsOk(s) && s.mode.Open? && s.scan.None? && p !in s.pins && s.latest in s.pins
    ensures exists min :: Alone(s, [LockAdvance(true), Swap(p, min)], s')
    ensures s' == s.(epoch := s.epoch + 1, history := s'.history, pins := s.pins[p := Pin(s.epoch + 1, s.roots)], latest := p,
                     cachedMin := s'.cachedMin, stamp := s.epoch + 1, mode := Committed(Some(s.latest)))
  {
    hide Alone, IsMin, EpochsOk;
    NoSteps(s);
    var a := Apply(s, LockAdvance(true));
    AloneNext(s, [], s, LockAdvance(true));
    var pins := a.pins[p := Pin(a.mode.epoch, a.roots)];
    assert p in pins;
    var min := MinExists(pins);
    s' := Apply(a, Swap(p, min));
    AloneNext(s, [] + [LockAdvance(true)], a, Swap(p, min));
    assert [] + [LockAdvance(true)] + [Swap(p, min)] == [LockAdvance(true), Swap(p, min)];
  }

  lemma UnpinAlone(s: State) returns (s': State)
    requires s.mode.Committed? && s.mode.prev.Some? && s.mode.prev.value in s.pins && s.mode.prev.value != s.latest && s.latest in s.pins
    ensures exists min :: Alone(s, [ReleasePrev(min)], s')
    ensures s' == s.(pins := s.pins - {s.mode.prev.value}, cachedMin := s'.cachedMin, mode := Committed(None))
  {
    hide Alone, IsMin;
    NoSteps(s);
    assert s.latest in s.pins - {s.mode.prev.value};
    var min := MinExists(s.pins - {s.mode.prev.value});
    s' := Apply(s, ReleasePrev(min));
    AloneNext(s, [], s, ReleasePrev(min));
    assert [] + [ReleasePrev(min)] == [ReleasePrev(min)];
  }

  /** Where a commit leaves a slot: what was logged waits two phases on, and what was never published is nobody's. */
  ghost function AfterCommit(p: Place, young: bool, epoch: nat, phase: nat): Place {
    if p.Logged? then Pending(young, epoch, phase + 2) else if p.Private? then Leaked else p
  }

  lemma CloseAlone(s: State) returns (s': State)
    requires s.mode == Committed(None) && s.scan.None?
    ensures Alone(s, [Stamp, CloseGuard], s') && s' == s.(mode := NoGuard, place := s'.place)
    ensures forall x :: At(s'.place, x) == AfterCommit(At(s.place, x), x in s.young, s.stamp, s.phase)
  {
    hide Alone;
    NoSteps(s);
    var d := Apply(s, Stamp);
    AloneNext(s, [], s, Stamp);
    s' := Apply(d, CloseGuard);
    AloneNext(s, [] + [Stamp], d, CloseGuard);
    assert [] + [Stamp] + [CloseGuard] == [Stamp, CloseGuard];
  }

  /**
   * A commit that nothing comes between: the latest snapshot is the live roots under the next epoch, the one before it
   * is unpinned, and everything logged waits two phases on, the old slots under that epoch.
   */
  lemma CommitAlone(s: State, p: nat) returns (steps: seq<Step>, s': State)
    requires Inv(s) && s.mode.Open? && s.scan.None? && p !in s.pins
    ensures Alone(s, steps, s') && s'.mode.NoGuard? && s'.latest == p && s'.epoch == s.epoch + 1
    ensures s'.pins == (s.pins - {s.latest})[p := Pin(s.epoch + 1, s.roots)]
    ensures s'.roots == s.roots && s'.mem == s.mem && s'.phase == s.phase && s'.readers == s.readers
    ensures forall x :: At(s'.place, x) == AfterCommit(At(s.place, x), x in s.young, s.epoch + 1, s.phase)
  {
    hide RootsOk, ReadersOk, PinsOk, Counted, Alone, HistoryOk, Enabled, Apply, At, AfterCommit, IsMin;
    var a := SwapAlone(s, p);
    var min :| Alone(s, [LockAdvance(true), Swap(p, min)], a);
    var b := UnpinAlone(a);
    var min' :| Alone(a, [ReleasePrev(min')], b);
    s' := CloseAlone(b);
    AloneThen(s, [LockAdvance(true), Swap(p, min)], a, [ReleasePrev(min')], b);
    steps := [LockAdvance(true), Swap(p, min)] + [ReleasePrev(min')];
    AloneThen(s, steps, b, [Stamp, CloseGuard], s');
    steps := steps + [Stamp, CloseGuard];
    assert (s.pins[p := Pin(s.epoch + 1, s.roots)]) - {s.latest} == (s.pins - {s.latest})[p := Pin(s.epoch + 1, s.roots)];
  }

  // -- Reclaiming, once the readers have left -------------------------------------------------

  lemma {:induction false} ScanAlone(s: State, k: nat) returns (steps: seq<Step>, s': State)
    requires Counted(s.active, s.readers) && s.readers == map[] && s.scan == Some(k) && k <= |s.active|
    ensures Alone(s, steps, s') && s' == s.(scan := Some(|s.active|))
    decreases |s.active| - k
  {
    if k == |s.active| {
      steps, s' := [], s;
    } else {
      assert |Inside(s.readers, k, (s.phase + 1) % 2)| == 0 by {
        assert Inside(s.readers, k, (s.phase + 1) % 2) == {};
      }
      var m := Apply(s, ScanStripe);
      var more;
      more, s' := ScanAlone(m, k + 1);
      steps := [ScanStripe] + more;
      assert steps[1..] == more;
    }
  }

  lemma AdvanceAlone(s: State) returns (steps: seq<Step>, s': State)
    requires Counted(s.active, s.readers) && s.readers == map[] && s.scan.None? && Working(s.mode)
    ensures Alone(s, steps, s') && s' == s.(phase := s.phase + 1)
  {
    hide Alone, Counted;
    NoSteps(s);
    var a := Apply(s, BeginScan);
    AloneNext(s, [], s, BeginScan);
    var scan, b := ScanAlone(a, 0);
    AloneThen(s, [] + [BeginScan], a, scan, b);
    s' := Apply(b, Advance);
    AloneNext(s, [] + [BeginScan] + scan, b, Advance);
    steps := [] + [BeginScan] + scan + [Advance];
  }

  lemma {:induction false} PhaseAlone(s: State, phase: nat) returns (steps: seq<Step>, s': State)
    requires Counted(s.active, s.readers) && s.readers == map[] && s.scan.None? && Working(s.mode)
    ensures Alone(s, steps, s') && s' == s.(phase := if s.phase < phase then phase else s.phase)
    decreases phase - s.phase
  {
    if phase <= s.phase {
      steps, s' := [], s;
    } else {
      hide Alone, Counted;
      var one, m := AdvanceAlone(s);
      var more;
      more, s' := PhaseAlone(m, phase);
      AloneThen(s, one, m, more, s');
      steps := one + more;
    }
  }

  /**
   * Nothing waits for ever: once every reader has left the gate and no pin is older than its stamp, the writer alone can
   * advance the phase and free any pending slot, leaving every other slot in its place.
   */
  lemma ReclaimAlone(s: State, x: Slot, link: Option<nat>) returns (steps: seq<Step>, s': State)
    requires Inv(s) && Working(s.mode) && s.scan.None? && s.readers == map[] && At(s.place, x).Pending?
    requires At(s.place, x).young || forall p :: p in s.pins ==> At(s.place, x).stamp <= s.pins[p].epoch
    ensures Alone(s, steps, s') && s'.place == s.place[x := Free] && s'.mem == s.mem[x := FreeLink(link)]
    ensures s'.roots == s.roots && s'.pins == s.pins && s'.latest == s.latest && s'.mode == s.mode
    ensures s.phase <= s'.phase && s'.phase == (if s.phase < At(s.place, x).grace then At(s.place, x).grace else s.phase)
  {
    hide RootsOk, ReadersOk, PinsOk, HistoryOk, Alone;
    var wait, a := PhaseAlone(s, At(s.place, x).grace);
    var b := Apply(a, ReadMin);
    AloneNext(s, wait, a, ReadMin);
    s' := Apply(b, Recycle(x, link));
    AloneNext(s, wait + [ReadMin], b, Recycle(x, link));
    steps := wait + [ReadMin] + [Recycle(x, link)];
  }
}
