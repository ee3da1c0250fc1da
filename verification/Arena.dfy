/**
 * The two-region slab arena as its single writer drives it: bump cursors, intrusive free lists,
 * and queues of retired slots that the reader gate and the snapshot pins hold back.
 *
 * `inUse` is what tree code owns: every slot handed out and not yet handed back by `Retire`.
 */
module Arenas {
  import opened Options
  import opened Chunks
  import opened Trees
  import opened Pending

  const CHUNK_SLOT: nat := 64
  const INTERIOR_SLOT: nat := 16
  const MAX_CAPACITY: nat := 0x8_0000_0000
  /** Tagged, this interior index would read as the null root. */
  const RESERVED_INTERIOR: nat := 0x7FFF_FFFF

  /** The slot is among the first `chunks` chunk slots or the first `interiors` interior slots. */
  predicate Below(s: Slot, chunks: nat, interiors: nat) {
    match s
    case ChunkSlot(i) => i < chunks
    case InteriorSlot(i) => i < interiors
  }

  /** Every slot below a cursor is in use, pending or free, exactly one of them, exactly once. */
  ghost predicate Conserved(inUse: set<Slot>, pend: multiset<Slot>, free: multiset<Slot>, chunks: nat, interiors: nat) {
    forall s: Slot :: (multiset(inUse) + pend + free)[s] == if Below(s, chunks, interiors) then 1 else 0
  }

  /** The links in memory spell out `list`, whose last element is the head. */
  ghost predicate FreeChain(m: Mem, head: Option<nat>, list: seq<nat>, interior: bool)
    decreases |list|
  {
    if list == [] then head == None
    else
      var last := list[|list| - 1];
      && head == Some(last)
      && SlotOf(interior, last) in m && m[SlotOf(interior, last)].FreeLink?
      && FreeChain(m, m[SlotOf(interior, last)].next, list[..|list| - 1], interior)
  }

  lemma {:induction false} ChainFrame(m: Mem, m': Mem, head: Option<nat>, list: seq<nat>, interior: bool)
    requires FreeChain(m, head, list, interior)
    requires forall i :: i in list ==>
      SlotOf(interior, i) in m && SlotOf(interior, i) in m' && m'[SlotOf(interior, i)] == m[SlotOf(interior, i)]
    ensures FreeChain(m', head, list, interior)
    decreases |list|
  {
    if list != [] {
      var last := list[|list| - 1];
      assert last in list;
      ChainFrame(m, m', m[SlotOf(interior, last)].next, list[..|list| - 1], interior);
    }
  }

  lemma {:induction false} ChainStored(m: Mem, head: Option<nat>, list: seq<nat>, interior: bool, i: nat)
    requires FreeChain(m, head, list, interior) && i in list
    ensures SlotOf(interior, i) in m
    decreases |list|
  {
    var last := list[|list| - 1];
    if i != last {
      assert i in list[..|list| - 1];
      ChainStored(m, m[SlotOf(interior, last)].next, list[..|list| - 1], interior, i);
    }
  }

  /** Memory changed at slots off the list only. */
  lemma ChainUntouched(m: Mem, m': Mem, head: Option<nat>, list: seq<nat>, interior: bool, changed: multiset<Slot>)
    requires FreeChain(m, head, list, interior)
    requires forall s :: s in m && s !in changed ==> s in m' && m'[s] == m[s]
    requires forall s :: s in changed ==> s !in IdxBag(interior, list)
    ensures FreeChain(m', head, list, interior)
  {
    forall i | i in list
      ensures SlotOf(interior, i) in m && SlotOf(interior, i) in m' && m'[SlotOf(interior, i)] == m[SlotOf(interior, i)]
    {
      ChainStored(m, head, list, interior, i);
      IdxBagMembers(interior, list, SlotOf(interior, i));
    }
    ChainFrame(m, m', head, list, interior);
  }

  // -- Moving slots between places --------------------------------------------

  lemma TakeFree(inUse: set<Slot>, pend: multiset<Slot>, free: multiset<Slot>, x: Slot, chunks: nat, interiors: nat)
    requires Conserved(inUse, pend, free + multiset{x}, chunks, interiors)
    ensures x !in inUse && Conserved(inUse + {x}, pend, free, chunks, interiors)
  {
    assert (multiset(inUse) + pend + (free + multiset{x}))[x] <= 1;
    assert multiset(inUse + {x}) == multiset(inUse) + multiset{x};
  }

  lemma TakeFresh(inUse: set<Slot>, pend: multiset<Slot>, free: multiset<Slot>, x: Slot,
                  chunks: nat, interiors: nat, chunks': nat, interiors': nat)
    requires Conserved(inUse, pend, free, chunks, interiors)
    requires !Below(x, chunks, interiors)
    requires forall s :: Below(s, chunks', interiors') <==> s == x || Below(s, chunks, interiors)
    ensures x !in inUse && Conserved(inUse + {x}, pend, free, chunks', interiors')
  {
    assert (multiset(inUse) + pend + free)[x] == 0;
    assert multiset(inUse + {x}) == multiset(inUse) + multiset{x};
  }

  lemma ReleasePending(inUse: set<Slot>, pend: multiset<Slot>, free: multiset<Slot>, b: multiset<Slot>, chunks: nat, interiors: nat)
    requires Conserved(inUse, b + pend, free, chunks, interiors)
    ensures Conserved(inUse, pend, free + b, chunks, interiors)
  {
    assert multiset(inUse) + pend + (free + b) == multiset(inUse) + (b + pend) + free;
  }

  lemma RetireUsed(inUse: set<Slot>, pend: multiset<Slot>, free: multiset<Slot>, b: multiset<Slot>, chunks: nat, interiors: nat)
    requires Conserved(inUse, pend, free, chunks, interiors) && b <= multiset(inUse)
    ensures Conserved(inUse - Members(b, inUse), pend + b, free, chunks, interiors)
  {
    var rest := inUse - Members(b, inUse);
    assert multiset(inUse) == multiset(rest) + b;
    assert multiset(rest) + (pend + b) + free == multiset(inUse) + pend + free;
  }

  ghost function Members(b: multiset<Slot>, u: set<Slot>): set<Slot> {
    set s | s in u && s in b
  }

  lemma OnePlace(inUse: set<Slot>, pend: multiset<Slot>, free: multiset<Slot>, chunks: nat, interiors: nat, s: Slot)
    requires Conserved(inUse, pend, free, chunks, interiors)
    ensures s in inUse ==> s !in pend && s !in free
    ensures s in pend ==> s !in free && pend[s] == 1
    ensures s in inUse || s in pend || s in free <==> Below(s, chunks, interiors)
  {
    assert (multiset(inUse) + pend + free)[s] == multiset(inUse)[s] + pend[s] + free[s];
  }

  // -- What the fields of an arena satisfy together ---------------------------

  /** Slot counts of the two regions, which grow towards each other and never overlap. */
  predicate ValidCursors(capacity: nat, low: nat, high: nat, chunks: nat, interiors: nat) {
    && capacity <= MAX_CAPACITY
    && low == CHUNK_SLOT * chunks && high + INTERIOR_SLOT * interiors == capacity
    && low <= high && interiors <= RESERVED_INTERIOR
  }

  ghost predicate ValidQueues(young: seq<Batch>, aged: seq<Batch>, stamp: nat, phase: nat) {
    && Rising(young, stamp, phase + 2) && Spread(young)
    && Rising(aged, stamp, phase + 2) && Spread(aged)
  }

  /** Slots on a free list hold links that spell the list out; every other slot is accounted for. */
  ghost predicate ValidSlots(m: Mem, inUse: set<Slot>, pend: multiset<Slot>,
                             chunkHead: Option<nat>, chunkList: seq<nat>,
                             interiorHead: Option<nat>, interiorList: seq<nat>,
                             chunks: nat, interiors: nat)
  {
    && FreeChain(m, chunkHead, chunkList, false)
    && FreeChain(m, interiorHead, interiorList, true)
    && Conserved(inUse, pend, IdxBag(false, chunkList) + IdxBag(true, interiorList), chunks, interiors)
    && (forall s: Slot :: s in m <==> Below(s, chunks, interiors))
  }

  /** The head of the chunk list moves to the caller. */
  lemma PopChunkSlots(m: Mem, inUse: set<Slot>, pend: multiset<Slot>, ch: Option<nat>, cl: seq<nat>,
                      ih: Option<nat>, il: seq<nat>, chunks: nat, interiors: nat)
    requires ValidSlots(m, inUse, pend, ch, cl, ih, il, chunks, interiors) && ch.Some?
    ensures cl != [] && ChunkSlot(ch.value) !in inUse
    ensures ChunkSlot(ch.value) in m && m[ChunkSlot(ch.value)].FreeLink?
    ensures ValidSlots(m, inUse + {ChunkSlot(ch.value)}, pend, m[ChunkSlot(ch.value)].next, cl[..|cl| - 1],
                       ih, il, chunks, interiors)
  {
    hide Conserved;
    var rest := IdxBag(false, cl[..|cl| - 1]) + IdxBag(true, il);
    assert IdxBag(false, cl) + IdxBag(true, il) == rest + multiset{ChunkSlot(ch.value)};
    TakeFree(inUse, pend, rest, ChunkSlot(ch.value), chunks, interiors);
  }

  lemma PopInteriorSlots(m: Mem, inUse: set<Slot>, pend: multiset<Slot>, ch: Option<nat>, cl: seq<nat>,
                         ih: Option<nat>, il: seq<nat>, chunks: nat, interiors: nat)
    requires ValidSlots(m, inUse, pend, ch, cl, ih, il, chunks, interiors) && ih.Some?
    ensures il != [] && InteriorSlot(ih.value) !in inUse
    ensures InteriorSlot(ih.value) in m && m[InteriorSlot(ih.value)].FreeLink?
    ensures ValidSlots(m, inUse + {InteriorSlot(ih.value)}, pend, ch, cl, m[InteriorSlot(ih.value)].next, il[..|il| - 1],
                       chunks, interiors)
  {
    hide Conserved;
    var rest := IdxBag(false, cl) + IdxBag(true, il[..|il| - 1]);
    assert IdxBag(false, cl) + IdxBag(true, il) == rest + multiset{InteriorSlot(ih.value)};
    TakeFree(inUse, pend, rest, InteriorSlot(ih.value), chunks, interiors);
  }

  /** Writing a slot that is on no free list keeps both lists spelled out. */
  lemma WriteKeepsLists(m: Mem, ch: Option<nat>, cl: seq<nat>, ih: Option<nat>, il: seq<nat>, s: Slot, node: Node)
    requires FreeChain(m, ch, cl, false) && FreeChain(m, ih, il, true)
    requires s !in IdxBag(false, cl) && s !in IdxBag(true, il)
    ensures FreeChain(m[s := node], ch, cl, false) && FreeChain(m[s := node], ih, il, true)
  {
    ChainUntouched(m, m[s := node], ch, cl, false, multiset{s});
    ChainUntouched(m, m[s := node], ih, il, true, multiset{s});
  }

  lemma BumpSlots(m: Mem, inUse: set<Slot>, pend: multiset<Slot>, ch: Option<nat>, cl: seq<nat>,
                  ih: Option<nat>, il: seq<nat>, chunks: nat, interiors: nat, interior: bool, node: Node)
    requires ValidSlots(m, inUse, pend, ch, cl, ih, il, chunks, interiors)
    ensures var s := SlotOf(interior, if interior then interiors else chunks);
      && s !in inUse && s !in m
      && ValidSlots(m[s := node], inUse + {s}, pend, ch, cl, ih, il,
                    if interior then chunks else chunks + 1, if interior then interiors + 1 else interiors)
  {
    var s := SlotOf(interior, if interior then interiors else chunks);
    var free := IdxBag(false, cl) + IdxBag(true, il);
    OnePlace(inUse, pend, free, chunks, interiors, s);
    WriteKeepsLists(m, ch, cl, ih, il, s, node);
    TakeFresh(inUse, pend, free, s, chunks, interiors,
              if interior then chunks else chunks + 1, if interior then interiors + 1 else interiors);
  }

  lemma WriteUsed(m: Mem, inUse: set<Slot>, pend: multiset<Slot>, ch: Option<nat>, cl: seq<nat>,
                  ih: Option<nat>, il: seq<nat>, chunks: nat, interiors: nat, s: Slot, node: Node)
    requires ValidSlots(m, inUse, pend, ch, cl, ih, il, chunks, interiors) && s in inUse
    ensures s in m && ValidSlots(m[s := node], inUse, pend, ch, cl, ih, il, chunks, interiors)
  {
    hide Conserved, FreeChain;
    OnePlace(inUse, pend, IdxBag(false, cl) + IdxBag(true, il), chunks, interiors, s);
    WriteKeepsLists(m, ch, cl, ih, il, s, node);
  }

  lemma PendingPlace(inUse: set<Slot>, pend: multiset<Slot>, free: multiset<Slot>, s: Slot, chunks: nat, interiors: nat)
    requires Conserved(inUse, pend + multiset{s}, free, chunks, interiors)
    ensures s !in inUse && s !in pend && s !in free && Below(s, chunks, interiors)
    ensures Conserved(inUse, pend, free + multiset{s}, chunks, interiors)
  {
    assert (multiset(inUse) + (pend + multiset{s}) + free)[s] <= 1;
    assert pend + multiset{s} == multiset{s} + pend;
    ReleasePending(inUse, pend, free, multiset{s}, chunks, interiors);
  }

  lemma SnocBag(interior: bool, list: seq<nat>, i: nat)
    ensures IdxBag(interior, list + [i]) == IdxBag(interior, list) + multiset{SlotOf(interior, i)}
  {
    assert (list + [i])[..|list|] == list;
  }

  lemma PushChain(m: Mem, head: Option<nat>, list: seq<nat>, interior: bool, i: nat)
    requires FreeChain(m, head, list, interior) && SlotOf(interior, i) !in IdxBag(interior, list)
    ensures FreeChain(m[SlotOf(interior, i) := FreeLink(head)], Some(i), list + [i], interior)
  {
    ChainUntouched(m, m[SlotOf(interior, i) := FreeLink(head)], head, list, interior, multiset{SlotOf(interior, i)});
    assert (list + [i])[..|list|] == list;
  }

  /** A retired slot that nothing holds back any more goes onto its free list. */
  lemma FreeChunkSlot(m: Mem, inUse: set<Slot>, pend: multiset<Slot>, ch: Option<nat>, cl: seq<nat>,
                      ih: Option<nat>, il: seq<nat>, chunks: nat, interiors: nat, i: nat)
    requires ValidSlots(m, inUse, pend + multiset{ChunkSlot(i)}, ch, cl, ih, il, chunks, interiors)
    ensures ChunkSlot(i) in m && ChunkSlot(i) !in inUse && ChunkSlot(i) !in pend
    ensures ValidSlots(m[ChunkSlot(i) := FreeLink(ch)], inUse, pend, Some(i), cl + [i], ih, il, chunks, interiors)
  {
    hide Conserved, FreeChain, IdxBag;
    var s, free := ChunkSlot(i), IdxBag(false, cl) + IdxBag(true, il);
    PendingPlace(inUse, pend, free, s, chunks, interiors);
    PushChain(m, ch, cl, false, i);
    ChainUntouched(m, m[s := FreeLink(ch)], ih, il, true, multiset{s});
    SnocBag(false, cl, i);
    assert free + multiset{s} == IdxBag(false, cl + [i]) + IdxBag(true, il);
  }

  lemma FreeInteriorSlot(m: Mem, inUse: set<Slot>, pend: multiset<Slot>, ch: Option<nat>, cl: seq<nat>,
                         ih: Option<nat>, il: seq<nat>, chunks: nat, interiors: nat, i: nat)
    requires ValidSlots(m, inUse, pend + multiset{InteriorSlot(i)}, ch, cl, ih, il, chunks, interiors)
    ensures InteriorSlot(i) in m && InteriorSlot(i) !in inUse && InteriorSlot(i) !in pend
    ensures ValidSlots(m[InteriorSlot(i) := FreeLink(ih)], inUse, pend, ch, cl, Some(i), il + [i], chunks, interiors)
  {
    hide Conserved, FreeChain, IdxBag;
    var s, free := InteriorSlot(i), IdxBag(false, cl) + IdxBag(true, il);
    PendingPlace(inUse, pend, free, s, chunks, interiors);
    PushChain(m, ih, il, true, i);
    ChainUntouched(m, m[s := FreeLink(ih)], ch, cl, false, multiset{s});
    SnocBag(true, il, i);
    assert free + multiset{s} == IdxBag(false, cl) + IdxBag(true, il + [i]);
  }

  lemma NoneLeft(interior: bool, idx: seq<nat>, extra: multiset<Slot>)
    ensures IdxBag(interior, idx[|idx|..]) + extra == extra
  {
  }

  lemma TakeFirst(interior: bool, idx: seq<nat>, k: nat, extra: multiset<Slot>)
    requires k < |idx|
    ensures IdxBag(interior, idx[k..]) + extra == multiset{SlotOf(interior, idx[k])} + (IdxBag(interior, idx[k + 1..]) + extra)
  {
    IdxBagHead(interior, idx[k..]);
    assert idx[k..][1..] == idx[k + 1..];
  }

  lemma EmptyLog(chunks: seq<nat>, interiors: seq<nat>, inUse: set<Slot>)
    requires chunks == [] && interiors == []
    ensures Bag(chunks, interiors) == multiset{}
    ensures Members(Bag(chunks, interiors), inUse) == {}
  {
  }

  lemma RisingLater(q: seq<Batch>, stamp: nat, grace: nat, stamp': nat)
    requires Rising(q, stamp, grace) && stamp <= stamp'
    ensures Rising(q, stamp', grace)
  {
  }

  lemma RetireQueues(young: seq<Batch>, aged: seq<Batch>, stamp: nat, phase: nat, y: Batch, o: Batch)
    requires ValidQueues(young, aged, stamp, phase)
    requires stamp <= y.stamp == o.stamp && y.grace == o.grace == phase + 2
    ensures ValidQueues(Enqueue(young, y), Enqueue(aged, o), y.stamp, phase)
  {
    hide Enqueue, Spread, Rising;
    RisingLater(young, stamp, phase + 2, y.stamp);
    RisingLater(aged, stamp, phase + 2, y.stamp);
    EnqueueKeeps(young, y, y.stamp, phase + 2);
    EnqueueKeeps(aged, o, y.stamp, phase + 2);
  }

  /** Queueing a log moves its slots from in use to pending, all of them and no others. */
  lemma RetireSlots(m: Mem, inUse: set<Slot>, young: seq<Batch>, aged: seq<Batch>, ch: Option<nat>, cl: seq<nat>,
                    ih: Option<nat>, il: seq<nat>, chunks: nat, interiors: nat, logC: seq<nat>, logI: seq<nat>,
                    y: Batch, o: Batch, startC: nat, startI: nat)
    requires ValidSlots(m, inUse, QueueBag(young) + QueueBag(aged), ch, cl, ih, il, chunks, interiors)
    requires Bag(logC, logI) <= multiset(inUse)
    requires y.chunks == Part(logC, startC, true) && o.chunks == Part(logC, startC, false)
    requires y.interiors == Part(logI, startI, true) && o.interiors == Part(logI, startI, false)
    ensures ValidSlots(m, inUse - Members(Bag(logC, logI), inUse),
                       QueueBag(Enqueue(young, y)) + QueueBag(Enqueue(aged, o)), ch, cl, ih, il, chunks, interiors)
    ensures QueueBag(Enqueue(young, y)) + QueueBag(Enqueue(aged, o)) == QueueBag(young) + QueueBag(aged) + Bag(logC, logI)
  {
    hide Conserved, FreeChain, Part, Enqueue, QueueBag, IdxBag;
    PartBag(false, logC, startC);
    PartBag(true, logI, startI);
    EnqueueBag(young, y);
    EnqueueBag(aged, o);
    var log := Bag(logC, logI);
    assert QueueBag(Enqueue(young, y)) + QueueBag(Enqueue(aged, o)) == QueueBag(young) + QueueBag(aged) + log;
    RetireUsed(inUse, QueueBag(young) + QueueBag(aged), IdxBag(false, cl) + IdxBag(true, il), log, chunks, interiors);
  }

  /** The phase a front batch waits for, among those that no pin holds. */
  function NeededPhase(young: seq<Batch>, aged: seq<Batch>, minPinned: nat): Option<nat> {
    var y := if young != [] then Some(young[0].grace) else None;
    var o := if aged != [] && aged[0].stamp <= minPinned then Some(aged[0].grace) else None;
    if y == None then o else if o == None then y else Some(Max(y.value, o.value))
  }

  /** A front batch that no pin holds is waiting for a later phase. */
  ghost predicate Wanted(young: seq<Batch>, aged: seq<Batch>, phase: nat, minPinned: nat) {
    || (young != [] && young[0].grace > phase)
    || (aged != [] && aged[0].stamp <= minPinned && aged[0].grace > phase)
  }

  /** How far one reclamation moves the phase: past each bucket found empty, if a batch wants it. */
  ghost function Moved(young: seq<Batch>, aged: seq<Batch>, phase: nat, answer: Answer): nat {
    if !Wanted(young, aged, phase, answer.minPinned) || !answer.emptyNext then phase
    else if !answer.emptyAfter then phase + 1 else phase + 2
  }

  lemma NothingReady(young: seq<Batch>, aged: seq<Batch>, stamp: nat, phase: nat, minPinned: nat)
    requires ValidQueues(young, aged, stamp, phase) && NeededPhase(young, aged, minPinned) == None
    ensures Drained(young, young, phase, None) && Drained(aged, aged, phase, Some(minPinned))
  {
    FrontDecides(young, 0, stamp, phase + 2, phase, None);
    FrontDecides(aged, 0, stamp, phase + 2, phase, Some(minPinned));
    assert young[0..] == young && aged[0..] == aged;
  }

  /** What concurrent readers answer one reclamation: the minimum pinned epoch, and two scans of the gate. */
  datatype Answer = Answer(minPinned: nat, emptyNext: bool, emptyAfter: bool)

  // -- What is left to hand out -----------------------------------------------

  /**
   * The stock of an arena. It is `idle` when nothing is queued, so that no reclamation can add to it,
   * and `ample` when the arena is too small for the reserved index.
   */
  datatype Stock = Stock(idle: bool, ample: bool, gap: nat, freeChunks: nat, freeInteriors: nat)

  ghost function Over(n: nat, have: nat): nat {
    if n > have then n - have else 0
  }

  /** There is room for `c` chunks and `i` interiors, in whatever order they are asked for. */
  ghost predicate Room(s: Stock, c: nat, i: nat) {
    s.idle && s.ample && CHUNK_SLOT * Over(c, s.freeChunks) + INTERIOR_SLOT * Over(i, s.freeInteriors) <= s.gap
  }

  /** The stock less `c` chunks and `i` interiors, free lists first. */
  ghost function After(s: Stock, c: nat, i: nat): Stock
    requires Room(s, c, i)
  {
    s.(freeChunks := Over(s.freeChunks, c), freeInteriors := Over(s.freeInteriors, i),
       gap := s.gap - (CHUNK_SLOT * Over(c, s.freeChunks) + INTERIOR_SLOT * Over(i, s.freeInteriors)))
  }

  /** An idle stock with room for exactly these slots gave them up. */
  ghost predicate Paid(s: Stock, s': Stock, c: nat, i: nat) {
    s.idle && s.ample ==> Room(s, c, i) && s' == After(s, c, i)
  }

  /** Slots asked for one after the other cost what they cost together, and find room together or not at all. */
  lemma PaidThen(s0: Stock, s1: Stock, s2: Stock, c1: nat, i1: nat, c2: nat, i2: nat)
    requires Paid(s0, s1, c1, i1)
    ensures s0.idle && s0.ample ==> s1.idle && s1.ample && (Room(s0, c1 + c2, i1 + i2) <==> Room(s1, c2, i2))
    ensures Paid(s1, s2, c2, i2) ==> Paid(s0, s2, c1 + c2, i1 + i2)
  {
  }

  lemma PaidNothing(s: Stock)
    ensures Paid(s, s, 0, 0)
  {
  }

  /** What was paid, in bytes: all of it off the cursors of a bare stock, and its chunks off what could be one. */
  lemma PaidBytes(s: Stock, s': Stock, c: nat, i: nat)
    requires Paid(s, s', c, i)
    ensures Bumped(s, s', CHUNK_SLOT * c + INTERIOR_SLOT * i)
    ensures s.idle && s.ample ==> ChunkBytes(s') + CHUNK_SLOT * c <= ChunkBytes(s)
  {
  }

  /** Bytes that could still become chunks. */
  ghost function ChunkBytes(s: Stock): nat {
    CHUNK_SLOT * s.freeChunks + s.gap
  }

  /** An idle stock stays idle and gives up at least `bytes` of what could become chunks. */
  ghost predicate Leaner(s: Stock, s': Stock, bytes: nat) {
    s.idle ==> s'.idle && ChunkBytes(s') + bytes <= ChunkBytes(s)
  }

  /** Nothing is queued or free: every slot comes off a cursor. */
  ghost predicate Bare(s: Stock) {
    s.idle && s.ample && s.freeChunks == 0 && s.freeInteriors == 0
  }

  /** A bare stock gives up exactly `bytes`. */
  ghost predicate Bumped(s: Stock, s': Stock, bytes: nat) {
    Bare(s) ==> Bare(s') && s'.gap + bytes == s.gap
  }

  /** One chunk asked of an idle stock: from the free list, else off the cursor, else not at all. */
  ghost predicate ChunkTaken(s: Stock, s': Stock, taken: bool) {
    && s'.ample == s.ample
    && (s.idle ==>
          if s.freeChunks > 0 then taken && s' == s.(freeChunks := s.freeChunks - 1)
          else if s.gap >= CHUNK_SLOT then taken && s' == s.(gap := s.gap - CHUNK_SLOT)
          else !taken && s' == s)
  }

  ghost predicate InteriorTaken(s: Stock, s': Stock, taken: bool) {
    && s'.ample == s.ample
    && (s.idle ==>
          if s.freeInteriors > 0 then taken && s' == s.(freeInteriors := s.freeInteriors - 1)
          else if taken then s.gap >= INTERIOR_SLOT && s' == s.(gap := s.gap - INTERIOR_SLOT)
          else s' == s && (s.ample ==> s.gap < INTERIOR_SLOT))
  }

  /** Draining an empty queue leaves it empty. */
  lemma NothingQueued(young: seq<Batch>, aged: seq<Batch>, young': seq<Batch>, aged': seq<Batch>, phase: nat, minPinned: nat)
    requires YoungLeft(young, young', phase) && OldLeft(aged, aged', phase, minPinned)
    ensures (young == [] ==> young' == []) && (aged == [] ==> aged' == [])
  {
    assert young' != [] ==> young'[0] in young';
    assert aged' != [] ==> aged'[0] in aged';
  }

  lemma StillWaiting(young: seq<Batch>, aged: seq<Batch>, young': seq<Batch>, aged': seq<Batch>, phase: nat, minPinned: nat)
    requires YoungLeft(young, young', phase) && OldLeft(aged, aged', phase, minPinned)
    ensures forall b :: b in young' ==> b.grace > phase
    ensures forall b :: b in aged' ==> b.grace > phase || b.stamp > minPinned
  {
  }

  lemma {:induction false} PartYoung(idx: seq<nat>, start: nat)
    requires forall k :: 0 <= k < |idx| ==> start <= idx[k]
    ensures Part(idx, start, true) == idx && Part(idx, start, false) == []
  {
    if idx != [] {
      PartYoung(idx[..|idx| - 1], start);
    }
  }

  /** A log of young slots alone, queued behind nothing: one batch, which waits for the gate only. */
  lemma YoungOnly(chunks: seq<nat>, interiors: seq<nat>, startC: nat, startI: nat, y: Batch, o: Batch, phase: nat, minPinned: nat)
    requires chunks != [] || interiors != []
    requires forall k :: 0 <= k < |chunks| ==> startC <= chunks[k]
    requires forall k :: 0 <= k < |interiors| ==> startI <= interiors[k]
    requires y.chunks == Part(chunks, startC, true) && y.interiors == Part(interiors, startI, true)
    requires o.chunks == Part(chunks, startC, false) && o.interiors == Part(interiors, startI, false)
    ensures y.chunks == chunks && y.interiors == interiors
    ensures Enqueue([], y) == [y] && Enqueue([], o) == [] && (y.grace > phase ==> Wanted([y], [], phase, minPinned))
    ensures Queued([y], false) == |chunks| && Queued([y], true) == |interiors|
    ensures Queued([], false) == 0 && Queued([], true) == 0
  {
    PartYoung(chunks, startC);
    PartYoung(interiors, startI);
  }

  /** A logged slot is in one of the two batches, on its own side, and was queued in neither queue before. */
  ghost predicate Sided(s: Slot, young: seq<Batch>, aged: seq<Batch>, y: Batch, o: Batch, older: bool) {
    && !InQueue(young, s) && !InQueue(aged, s)
    && (InBatch(o, s) <==> older) && (InBatch(y, s) <==> !older)
  }

  lemma LoggedMember(chunks: seq<nat>, interiors: seq<nat>, startC: nat, startI: nat, y: Batch, o: Batch, s: Slot)
    requires s in Bag(chunks, interiors)
    requires y.chunks == Part(chunks, startC, true) && y.interiors == Part(interiors, startI, true)
    requires o.chunks == Part(chunks, startC, false) && o.interiors == Part(interiors, startI, false)
    ensures InBatch(o, s) <==> Below(s, startC, startI)
    ensures InBatch(y, s) <==> !Below(s, startC, startI)
  {
    IdxBagMembers(false, chunks, s);
    IdxBagMembers(true, interiors, s);
    PartMembers(chunks, startC);
    PartMembers(interiors, startI);
  }

  lemma AllDrained(y: Batch, young: seq<Batch>, aged: seq<Batch>, phase: nat, minPinned: nat)
    requires YoungLeft([y], young, phase) && OldLeft([], aged, phase, minPinned) && y.grace <= phase
    ensures young == [] && aged == []
  {
    Member(young);
    Member(aged);
  }

  lemma Member(q: seq<Batch>)
    ensures q != [] ==> exists b :: b in q
  {
    assert q != [] ==> q[0] in q;
  }

  lemma PaidChunk(s: Stock, s': Stock, taken: bool)
    requires ChunkTaken(s, s', taken)
    ensures if taken then Paid(s, s', 1, 0) && Leaner(s, s', CHUNK_SLOT)
            else !Room(s, 1, 0) && (s.idle ==> s' == s && ChunkBytes(s) < CHUNK_SLOT)
  {
  }

  lemma PaidInterior(s: Stock, s': Stock, taken: bool)
    requires InteriorTaken(s, s', taken)
    ensures Leaner(s, s', 0)
    ensures if taken then Paid(s, s', 0, 1) else !Room(s, 0, 1) && (s.idle ==> s' == s)
  {
  }

  /** Superseded slots that tree operations have recorded; nothing here may be reused yet. */
  class RetireLog {
    var chunks: seq<nat>
    var interiors: seq<nat>

    constructor ()
      ensures chunks == [] && interiors == []
    {
      chunks, interiors := [], [];
    }

    ghost function Contents(): multiset<Slot>
      reads this
    {
      Bag(chunks, interiors)
    }
  }

  class Arena {
    const capacity: nat
    /** The answers of the readers, in the order they are asked. */
    const readers: nat -> Answer
    var asked: nat
    /** The gap between the regions: chunks are cut from its low end, interiors from its high end. */
    var low: nat
    var high: nat
    var mem: Mem
    var freeChunkHead: Option<nat>
    var freeInteriorHead: Option<nat>
    var freeChunks: nat
    var freeInteriors: nat
    var pendingYoung: seq<Batch>
    var pendingOld: seq<Batch>
    /** The reader gate's phase; only the writer stores it. */
    var phase: nat
    /** Cursors when the current guard began: at or past them, a slot is this guard's own. */
    var youngChunkStart: nat
    var youngInteriorStart: nat
    ghost var inUse: set<Slot>
    ghost var chunkList: seq<nat>
    ghost var interiorList: seq<nat>
    ghost var chunks: nat
    ghost var interiors: nat
    /** The newest stamp handed to `Retire`. */
    ghost var lastStamp: nat

    ghost predicate Valid()
      reads this
    {
      && ValidCursors(capacity, low, high, chunks, interiors)
      && youngChunkStart <= chunks && youngInteriorStart <= interiors
      && freeChunks == |chunkList| && freeInteriors == |interiorList|
      && ValidQueues(pendingYoung, pendingOld, lastStamp, phase)
      && ValidSlots(mem, inUse, PendingBag(), freeChunkHead, chunkList, freeInteriorHead, interiorList, chunks, interiors)
    }

    /** `Valid`, with the slots of `extra` off the queues and not yet on a free list. */
    ghost predicate ValidHolding(extra: multiset<Slot>)
      reads this
    {
      && ValidCursors(capacity, low, high, chunks, interiors)
      && youngChunkStart <= chunks && youngInteriorStart <= interiors
      && freeChunks == |chunkList| && freeInteriors == |interiorList|
      && ValidQueues(pendingYoung, pendingOld, lastStamp, phase)
      && ValidSlots(mem, inUse, PendingBag() + extra, freeChunkHead, chunkList, freeInteriorHead, interiorList, chunks, interiors)
    }

    ghost function PendingBag(): multiset<Slot>
      reads this
    {
      QueueBag(pendingYoung) + QueueBag(pendingOld)
    }

    ghost function Supply(): Stock
      reads this
    {
      Stock(pendingYoung == [] && pendingOld == [], capacity < INTERIOR_SLOT * RESERVED_INTERIOR,
            if low <= high then high - low else 0, freeChunks, freeInteriors)
    }

    /** The slots on the two free lists. */
    ghost function FreeBag(): multiset<Slot>
      reads this
    {
      Bag(chunkList, interiorList)
    }

    /**
     * What becomes of slots that a guard has retired: none is in use, and each is free or queued as `Fate` says, older
     * than the guard if it lies below the cursors that the guard started from.
     */
    ghost predicate Recycling(logged: multiset<Slot>, stamp: nat, grace: nat, minPinned: nat)
      reads this
    {
      forall s :: s in logged ==>
        s !in inUse && Below(s, chunks, interiors)
        && Fate(s, pendingYoung, pendingOld, FreeBag(), Below(s, youngChunkStart, youngInteriorStart), stamp, grace, phase, minPinned)
    }

    /** Everything logged was allocated under the current guard. */
    ghost predicate Young(log: RetireLog)
      reads this`youngChunkStart, this`youngInteriorStart, log
    {
      && (forall k :: 0 <= k < |log.chunks| ==> youngChunkStart <= log.chunks[k])
      && (forall k :: 0 <= k < |log.interiors| ==> youngInteriorStart <= log.interiors[k])
    }

    /** No reader is ever found in the gate. */
    ghost predicate Quiet() {
      forall k: nat :: readers(k).emptyNext && readers(k).emptyAfter
    }

    /** By the readers' last answer, nothing that is queued may be reused yet. */
    ghost predicate Waiting()
      reads this
    {
      && asked > 0 && (forall b :: b in pendingYoung ==> b.grace > phase)
      && forall b :: b in pendingOld ==> b.grace > phase || b.stamp > readers(asked - 1).minPinned
    }

    /** One of the two regions can hand out nothing: its free list is empty, its cursor is spent, and nothing queued is ready. */
    ghost predicate Exhausted()
      reads this
    {
      Waiting() && Spent()
    }

    ghost predicate Spent()
      reads this
    {
      || (freeChunks == 0 && low + CHUNK_SLOT > high)
      || (freeInteriors == 0 && (high < low + INTERIOR_SLOT || interiors == RESERVED_INTERIOR))
    }

    /** What no writer step of a guard changes. */
    twostate predicate SameGuard()
      reads this
    {
      && youngChunkStart == old(youngChunkStart) && youngInteriorStart == old(youngInteriorStart)
      && lastStamp == old(lastStamp) && phase >= old(phase)
      && Leaner(old(Supply()), Supply(), 0)
    }

    /** Every slot still in use, and every slot pending now, reads as it did before. */
    twostate predicate Undisturbed()
      reads this
    {
      forall s :: s in old(mem) && ((s in old(inUse) && s in inUse) || s in PendingBag()) ==> s in mem && mem[s] == old(mem[s])
    }

    /** An empty arena: `bytes` rounded down to a whole interior slot. */
    constructor (bytes: nat, readers: nat -> Answer)
      requires INTERIOR_SLOT <= bytes <= MAX_CAPACITY
      ensures this.readers == readers
      ensures Valid() && inUse == {} && capacity == bytes - bytes % INTERIOR_SLOT
      ensures low == 0 && high == capacity && phase == 0 && lastStamp == 0
      ensures Blank() && mem == map[]
    {
      capacity := bytes - bytes % INTERIOR_SLOT;
      this.readers, asked := readers, 0;
      low, high := 0, bytes - bytes % INTERIOR_SLOT;
      mem := map[];
      freeChunkHead, freeInteriorHead, freeChunks, freeInteriors := None, None, 0, 0;
      pendingYoung, pendingOld, phase := [], [], 0;
      youngChunkStart, youngInteriorStart := 0, 0;
      inUse, chunkList, interiorList, lastStamp := {}, [], [], 0;
      chunks, interiors := 0, 0;
    }

    /** Nothing allocated, freed or retired yet; region writers may be filling the memory. */
    ghost predicate Blank()
      reads this
    {
      && capacity <= MAX_CAPACITY && capacity % INTERIOR_SLOT == 0
      && low == 0 && high == capacity && chunks == 0 && interiors == 0
      && freeChunkHead == None && freeInteriorHead == None && freeChunks == 0 && freeInteriors == 0
      && chunkList == [] && interiorList == [] && pendingYoung == [] && pendingOld == []
      && phase == 0 && youngChunkStart == 0 && youngInteriorStart == 0 && inUse == {} && lastStamp == 0
    }

    /** Publish the cursors after region writers have filled the first slots of both regions. */
    method CommitRegions(chunkSlots: nat, interiorSlots: nat, ghost used: set<Slot>)
      requires Blank() && chunkSlots * CHUNK_SLOT + interiorSlots * INTERIOR_SLOT <= capacity && interiorSlots <= RESERVED_INTERIOR
      requires (forall s: Slot :: s in used <==> Below(s, chunkSlots, interiorSlots)) && mem.Keys == used
      modifies this`low, this`high, this`chunks, this`interiors, this`inUse
      ensures Valid() && inUse == used && lastStamp == 0
      ensures low == CHUNK_SLOT * chunkSlots && high + INTERIOR_SLOT * interiorSlots == capacity
    {
      low := chunkSlots * CHUNK_SLOT;
      high := capacity - interiorSlots * INTERIOR_SLOT;
      chunks, interiors, inUse := chunkSlots, interiorSlots, used;
    }

    /** A new guard: what lies below the cursors now is old. */
    method BeginGuard()
      requires Valid()
      modifies this`youngChunkStart, this`youngInteriorStart
      ensures Valid()
      ensures youngChunkStart == chunks && youngInteriorStart == interiors && Supply() == old(Supply())
    {
      hide ValidQueues, ValidSlots, QueueBag;
      youngChunkStart := low / CHUNK_SLOT;
      youngInteriorStart := (capacity - high) / INTERIOR_SLOT;
    }

    // -- Allocation -----------------------------------------------------------

    method PopFreeChunk() returns (r: Option<nat>)
      requires Valid()
      modifies this`freeChunkHead, this`freeChunks, this`chunkList, this`inUse
      ensures Valid()
      ensures r.None? <==> old(freeChunks) == 0
      ensures r.None? ==> unchanged(this)
      ensures r.Some? ==> ChunkSlot(r.value) !in old(inUse) && inUse == old(inUse) + {ChunkSlot(r.value)}
      ensures r.Some? ==> freeChunks == old(freeChunks) - 1
    {
      hide Conserved, QueueBag, ValidQueues, IdxBag;
      if freeChunkHead == None {
        return None;
      }
      var idx := freeChunkHead.value;
      PopChunkSlots(mem, inUse, PendingBag(), freeChunkHead, chunkList, freeInteriorHead, interiorList, chunks, interiors);
      freeChunkHead := mem[ChunkSlot(idx)].next;
      freeChunks := freeChunks - 1;
      chunkList := chunkList[..|chunkList| - 1];
      inUse := inUse + {ChunkSlot(idx)};
      r := Some(idx);
    }

    method PopFreeInterior() returns (r: Option<nat>)
      requires Valid()
      modifies this`freeInteriorHead, this`freeInteriors, this`interiorList, this`inUse
      ensures Valid()
      ensures r.None? <==> old(freeInteriors) == 0
      ensures r.None? ==> unchanged(this)
      ensures r.Some? ==> InteriorSlot(r.value) !in old(inUse) && inUse == old(inUse) + {InteriorSlot(r.value)}
      ensures r.Some? ==> freeInteriors == old(freeInteriors) - 1
    {
      hide Conserved, QueueBag, ValidQueues, IdxBag;
      if freeInteriorHead == None {
        return None;
      }
      var idx := freeInteriorHead.value;
      PopInteriorSlots(mem, inUse, PendingBag(), freeChunkHead, chunkList, freeInteriorHead, interiorList, chunks, interiors);
      freeInteriorHead := mem[InteriorSlot(idx)].next;
      freeInteriors := freeInteriors - 1;
      interiorList := interiorList[..|interiorList| - 1];
      inUse := inUse + {InteriorSlot(idx)};
      r := Some(idx);
    }

    /** Bump the chunk cursor, or report that the regions would meet. */
    method BumpChunk() returns (r: Option<nat>)
      requires Valid()
      modifies this`low, this`mem, this`inUse, this`chunks
      ensures Valid()
      ensures r.None? <==> old(low) + CHUNK_SLOT > high
      ensures r.None? ==> unchanged(this)
      ensures r.Some? ==> ChunkSlot(r.value) !in old(inUse) && inUse == old(inUse) + {ChunkSlot(r.value)}
      ensures r.Some? ==> youngChunkStart <= r.value && ChunkSlot(r.value) !in old(mem)
      ensures r.Some? ==> mem == old(mem)[ChunkSlot(r.value) := FreeLink(None)] && low == old(low) + CHUNK_SLOT
    {
      hide ValidSlots, QueueBag, ValidQueues;
      if low + CHUNK_SLOT > high {
        return None;
      }
      var idx := low / CHUNK_SLOT;
      BumpSlots(mem, inUse, PendingBag(), freeChunkHead, chunkList, freeInteriorHead, interiorList,
                chunks, interiors, false, FreeLink(None));
      low := low + CHUNK_SLOT;
      mem := mem[ChunkSlot(idx) := FreeLink(None)];
      inUse := inUse + {ChunkSlot(idx)};
      chunks := chunks + 1;
      r := Some(idx);
    }

    /** Bump the interior cursor; the reserved index is never handed out. */
    method BumpInterior() returns (r: Option<nat>)
      requires Valid()
      modifies this`high, this`mem, this`inUse, this`interiors
      ensures Valid()
      ensures r.None? <==> old(high) < low + INTERIOR_SLOT || old(interiors) == RESERVED_INTERIOR
      ensures r.None? ==> unchanged(this)
      ensures r.Some? ==> InteriorSlot(r.value) !in old(inUse) && inUse == old(inUse) + {InteriorSlot(r.value)}
      ensures r.Some? ==> youngInteriorStart <= r.value < RESERVED_INTERIOR && InteriorSlot(r.value) !in old(mem)
      ensures r.Some? ==> mem == old(mem)[InteriorSlot(r.value) := FreeLink(None)] && high == old(high) - INTERIOR_SLOT
    {
      hide ValidSlots, QueueBag, ValidQueues;
      if high < low + INTERIOR_SLOT {
        return None;
      }
      var newHigh := high - INTERIOR_SLOT;
      var idx := (capacity - newHigh) / INTERIOR_SLOT - 1;
      if idx >= RESERVED_INTERIOR {
        return None;
      }
      BumpSlots(mem, inUse, PendingBag(), freeChunkHead, chunkList, freeInteriorHead, interiorList,
                chunks, interiors, true, FreeLink(None));
      high := newHigh;
      mem := mem[InteriorSlot(idx) := FreeLink(None)];
      inUse := inUse + {InteriorSlot(idx)};
      interiors := interiors + 1;
      r := Some(idx);
    }

    // -- Reclamation ----------------------------------------------------------

    method FreeChunk(i: nat, ghost left: multiset<Slot>)
      requires ValidHolding(multiset{ChunkSlot(i)} + left)
      modifies this`mem, this`freeChunkHead, this`freeChunks, this`chunkList
      ensures ValidHolding(left) && Undisturbed()
      ensures chunkList == old(chunkList) + [i]
    {
      hide ValidSlots, QueueBag, ValidQueues, ValidCursors, IdxBag;
      assert PendingBag() + (multiset{ChunkSlot(i)} + left) == PendingBag() + left + multiset{ChunkSlot(i)};
      FreeChunkSlot(mem, inUse, PendingBag() + left, freeChunkHead, chunkList, freeInteriorHead, interiorList,
            chunks, interiors, i);
      mem := mem[ChunkSlot(i) := FreeLink(freeChunkHead)];
      freeChunkHead := Some(i);
      freeChunks := freeChunks + 1;
      chunkList := chunkList + [i];
    }

    method FreeChunks(idx: seq<nat>, ghost extra: multiset<Slot>)
      requires ValidHolding(IdxBag(false, idx) + extra)
      modifies this`mem, this`freeChunkHead, this`freeChunks, this`chunkList
      ensures ValidHolding(extra) && Undisturbed()
      ensures chunkList == old(chunkList) + idx
    {
      hide ValidHolding, QueueBag, IdxBag;
      assert idx[0..] == idx;
      for k := 0 to |idx|
        invariant ValidHolding(IdxBag(false, idx[k..]) + extra) && Undisturbed()
        invariant chunkList == old(chunkList) + idx[..k]
      {
        TakeFirst(false, idx, k, extra);
        label before:
        FreeChunk(idx[k], IdxBag(false, idx[k + 1..]) + extra);
        assert Undisturbed@before();
      }
      NoneLeft(false, idx, extra);
    }

    method FreeInterior(i: nat, ghost left: multiset<Slot>)
      requires ValidHolding(multiset{InteriorSlot(i)} + left)
      modifies this`mem, this`freeInteriorHead, this`freeInteriors, this`interiorList
      ensures ValidHolding(left) && Undisturbed()
      ensures interiorList == old(interiorList) + [i]
    {
      hide ValidSlots, QueueBag, ValidQueues, ValidCursors, IdxBag;
      assert PendingBag() + (multiset{InteriorSlot(i)} + left) == PendingBag() + left + multiset{InteriorSlot(i)};
      FreeInteriorSlot(mem, inUse, PendingBag() + left, freeChunkHead, chunkList, freeInteriorHead, interiorList,
            chunks, interiors, i);
      mem := mem[InteriorSlot(i) := FreeLink(freeInteriorHead)];
      freeInteriorHead := Some(i);
      freeInteriors := freeInteriors + 1;
      interiorList := interiorList + [i];
    }

    method FreeInteriors(idx: seq<nat>, ghost extra: multiset<Slot>)
      requires ValidHolding(IdxBag(true, idx) + extra)
      modifies this`mem, this`freeInteriorHead, this`freeInteriors, this`interiorList
      ensures ValidHolding(extra) && Undisturbed()
      ensures interiorList == old(interiorList) + idx
    {
      hide ValidHolding, QueueBag, IdxBag;
      assert idx[0..] == idx;
      for k := 0 to |idx|
        invariant ValidHolding(IdxBag(true, idx[k..]) + extra) && Undisturbed()
        invariant interiorList == old(interiorList) + idx[..k]
      {
        TakeFirst(true, idx, k, extra);
        label before:
        FreeInterior(idx[k], IdxBag(true, idx[k + 1..]) + extra);
        assert Undisturbed@before();
      }
      NoneLeft(true, idx, extra);
    }

    /** Thread a drained batch's slots onto the free lists. */
    method FreeBatch(b: Batch)
      requires ValidHolding(BatchBag(b))
      modifies this`mem, this`freeChunkHead, this`freeInteriorHead, this`freeChunks, this`freeInteriors,
               this`chunkList, this`interiorList
      ensures Valid() && Undisturbed()
      ensures chunkList == old(chunkList) + b.chunks && interiorList == old(interiorList) + b.interiors
      ensures freeChunks == old(freeChunks) + |b.chunks| && freeInteriors == old(freeInteriors) + |b.interiors|
    {
      hide ValidSlots, QueueBag, ValidQueues, IdxBag;
      FreeChunks(b.chunks, IdxBag(true, b.interiors));
      assert IdxBag(true, b.interiors) + multiset{} == IdxBag(true, b.interiors);
      FreeInteriors(b.interiors, multiset{});
      assert PendingBag() + multiset{} == PendingBag();
    }

    /** Move the phase past each bucket that the scans found empty, two steps at most. */
    method Advance(emptyNext: bool, emptyAfter: bool)
      requires Valid()
      modifies this`phase
      ensures Valid()
      ensures phase == old(phase) + (if !emptyNext then 0 else if !emptyAfter then 1 else 2)
    {
      hide ValidSlots, QueueBag, Spread;
      if emptyNext {
        phase := phase + 1;
        if emptyAfter {
          phase := phase + 1;
        }
      }
    }

    method DrainYoung()
      requires Valid()
      modifies this`mem, this`freeChunkHead, this`freeInteriorHead, this`freeChunks, this`freeInteriors,
               this`chunkList, this`interiorList, this`pendingYoung
      ensures Valid() && Undisturbed()
      ensures Drained(old(pendingYoung), pendingYoung, phase, None) && PendingBag() <= old(PendingBag())
      ensures freeChunks + Queued(pendingYoung, false) == old(freeChunks + Queued(pendingYoung, false))
      ensures freeInteriors + Queued(pendingYoung, true) == old(freeInteriors + Queued(pendingYoung, true))
    {
      hide ValidSlots, ValidCursors, QueueBag, BatchBag, Rising, Spread, Queued, Drained;
      ghost var k := 0;
      while pendingYoung != [] && pendingYoung[0].grace <= phase
        invariant Valid() && Undisturbed() && PendingBag() <= old(PendingBag())
        invariant k <= |old(pendingYoung)| && pendingYoung == old(pendingYoung)[k..]
        invariant freeChunks + Queued(pendingYoung, false) == old(freeChunks + Queued(pendingYoung, false))
        invariant freeInteriors + Queued(pendingYoung, true) == old(freeInteriors + Queued(pendingYoung, true))
        invariant forall i :: 0 <= i < k ==> Ready(old(pendingYoung)[i], phase, None)
        decreases |pendingYoung|
      {
        var b := pendingYoung[0];
        QueueBagHead(pendingYoung);
        QueuedHead(pendingYoung);
        DrainKeeps(pendingYoung, 1, lastStamp, phase + 2);
        ghost var whole := PendingBag();
        pendingYoung := pendingYoung[1..];
        k := k + 1;
        assert PendingBag() + BatchBag(b) == whole;
        FreeBatch(b);
      }
      FrontDecides(old(pendingYoung), k, lastStamp, phase + 2, phase, None);
    }

    method DrainOld(minPinned: nat)
      requires Valid()
      modifies this`mem, this`freeChunkHead, this`freeInteriorHead, this`freeChunks, this`freeInteriors,
               this`chunkList, this`interiorList, this`pendingOld
      ensures Valid() && Undisturbed()
      ensures Drained(old(pendingOld), pendingOld, phase, Some(minPinned)) && PendingBag() <= old(PendingBag())
      ensures freeChunks + Queued(pendingOld, false) == old(freeChunks + Queued(pendingOld, false))
      ensures freeInteriors + Queued(pendingOld, true) == old(freeInteriors + Queued(pendingOld, true))
    {
      hide ValidSlots, ValidCursors, QueueBag, BatchBag, Rising, Spread, Queued, Ready, Drained;
      ghost var k := 0;
      while pendingOld != [] && Ready(pendingOld[0], phase, Some(minPinned))
        invariant Valid() && Undisturbed() && PendingBag() <= old(PendingBag())
        invariant k <= |old(pendingOld)| && pendingOld == old(pendingOld)[k..]
        invariant freeChunks + Queued(pendingOld, false) == old(freeChunks + Queued(pendingOld, false))
        invariant freeInteriors + Queued(pendingOld, true) == old(freeInteriors + Queued(pendingOld, true))
        invariant forall i :: 0 <= i < k ==> Ready(old(pendingOld)[i], phase, Some(minPinned))
        decreases |pendingOld|
      {
        var b := pendingOld[0];
        QueueBagHead(pendingOld);
        QueuedHead(pendingOld);
        DrainKeeps(pendingOld, 1, lastStamp, phase + 2);
        ghost var whole := PendingBag();
        pendingOld := pendingOld[1..];
        k := k + 1;
        assert PendingBag() + BatchBag(b) == whole;
        FreeBatch(b);
      }
      FrontDecides(old(pendingOld), k, lastStamp, phase + 2, phase, Some(minPinned));
    }

    /**
     * Free every batch that is ready, advancing the gate only for a front batch that nothing else
     * holds. `minPinned` and the two scan answers come from readers running concurrently.
     */
    method ReclaimReady(minPinned: nat, emptyNext: bool, emptyAfter: bool)
      requires Valid()
      modifies this`mem, this`freeChunkHead, this`freeInteriorHead, this`freeChunks, this`freeInteriors,
               this`chunkList, this`interiorList, this`pendingYoung, this`pendingOld, this`phase
      ensures Valid() && Undisturbed()
      ensures old(phase) <= phase <= old(phase) + 2
      ensures phase == Moved(old(pendingYoung), old(pendingOld), old(phase), Answer(minPinned, emptyNext, emptyAfter))
      ensures YoungLeft(old(pendingYoung), pendingYoung, phase) && OldLeft(old(pendingOld), pendingOld, phase, minPinned)
      ensures Freed()
    {
      hide ValidSlots, ValidQueues, QueueBag, BatchBag, Drained, YoungLeft, OldLeft;
      var needed := NeededPhase(pendingYoung, pendingOld, minPinned);
      if needed == None {
        NothingReady(pendingYoung, pendingOld, lastStamp, phase, minPinned);
        YoungDrained(pendingYoung, pendingYoung, phase);
        OldDrained(pendingOld, pendingOld, phase, minPinned);
        return;
      }
      ghost var young, aged := pendingYoung, pendingOld;
      if phase < needed.value {
        Advance(emptyNext, emptyAfter);
      }
      DrainBoth(minPinned);
      YoungDrained(young, pendingYoung, phase);
      OldDrained(aged, pendingOld, phase, minPinned);
    }

    /** Slots go from the queues to the free lists only. */
    twostate predicate Freed()
      reads this
    {
      && freeChunks + Queued(pendingYoung, false) + Queued(pendingOld, false)
         == old(freeChunks + Queued(pendingYoung, false) + Queued(pendingOld, false))
      && freeInteriors + Queued(pendingYoung, true) + Queued(pendingOld, true)
         == old(freeInteriors + Queued(pendingYoung, true) + Queued(pendingOld, true))
    }

    method DrainBoth(minPinned: nat)
      requires Valid()
      modifies this`mem, this`freeChunkHead, this`freeInteriorHead, this`freeChunks, this`freeInteriors,
               this`chunkList, this`interiorList, this`pendingYoung, this`pendingOld
      ensures Valid() && Undisturbed()
      ensures Drained(old(pendingYoung), pendingYoung, phase, None)
      ensures Drained(old(pendingOld), pendingOld, phase, Some(minPinned))
      ensures Freed()
    {
      hide ValidSlots, ValidQueues, ValidCursors, QueueBag, BatchBag, Drained;
      DrainYoung();
      label drained:
      DrainOld(minPinned);
      assert Undisturbed@drained();
    }

    // -- Allocation with reclamation as the last resort ------------------------

    /** The readers' next answer. */
    method Ask() returns (answer: Answer)
      requires Valid()
      modifies this`asked
      ensures Valid() && answer == readers(old(asked)) && asked == old(asked) + 1
    {
      answer := readers(asked);
      asked := asked + 1;
    }

    /** Free every batch that is ready by what the readers answer now. */
    method ReclaimNow()
      requires Valid()
      modifies this`mem, this`freeChunkHead, this`freeInteriorHead, this`freeChunks, this`freeInteriors,
               this`chunkList, this`interiorList, this`pendingYoung, this`pendingOld, this`phase, this`asked
      ensures Valid() && Undisturbed() && Freed() && asked == old(asked) + 1
      ensures old(phase) <= phase == Moved(old(pendingYoung), old(pendingOld), old(phase), readers(old(asked))) <= old(phase) + 2
      ensures YoungLeft(old(pendingYoung), pendingYoung, phase)
      ensures OldLeft(old(pendingOld), pendingOld, phase, readers(old(asked)).minPinned) && Waiting()
      ensures old(Supply()).idle ==> Supply() == old(Supply())
    {
      hide ValidSlots, ValidQueues, ValidCursors, QueueBag, Moved, YoungLeft, OldLeft;
      var answer := Ask();
      ghost var young, aged := pendingYoung, pendingOld;
      ReclaimReady(answer.minPinned, answer.emptyNext, answer.emptyAfter);
      NothingQueued(young, aged, pendingYoung, pendingOld, phase, answer.minPinned);
      assert Waiting() by { StillWaiting(young, aged, pendingYoung, pendingOld, phase, answer.minPinned); }
    }

    /** Both the free list and the cursor are spent: fold in what is ready and look once more. */
    method ReclaimedChunk() returns (r: Option<nat>)
      requires Valid()
      modifies this
      ensures Valid() && Undisturbed() && SameGuard()
      ensures low == old(low) && high == old(high) && interiors == old(interiors)
      ensures r.None? ==> freeChunks == 0 && inUse == old(inUse) && Waiting()
      ensures r.Some? ==> ChunkSlot(r.value) !in old(inUse) && inUse == old(inUse) + {ChunkSlot(r.value)}
      ensures old(Supply()).idle && old(freeChunks) == 0 ==> r.None? && Supply() == old(Supply())
    {
      hide ValidSlots, ValidQueues, ValidCursors, QueueBag, YoungLeft, OldLeft, Moved;
      ReclaimNow();
      r := PopFreeChunk();
    }

    method AllocChunk() returns (r: Option<nat>)
      requires Valid()
      modifies this
      ensures Valid() && Undisturbed() && SameGuard()
      ensures r.None? ==> freeChunks == 0 && low + CHUNK_SLOT > high && inUse == old(inUse) && Waiting()
      ensures ChunkTaken(old(Supply()), Supply(), r.Some?)
      ensures r.Some? ==> ChunkSlot(r.value) !in old(inUse) && inUse == old(inUse) + {ChunkSlot(r.value)}
    {
      hide ValidSlots, ValidQueues, QueueBag;
      r := PopFreeChunk();
      if r == None {
        r := BumpChunk();
        if r == None {
          r := ReclaimedChunk();
        }
      }
    }

    /** Both the free list and the cursor are spent: fold in what is ready and look once more. */
    method ReclaimedInterior() returns (r: Option<nat>)
      requires Valid()
      modifies this
      ensures Valid() && Undisturbed() && SameGuard()
      ensures low == old(low) && high == old(high) && interiors == old(interiors)
      ensures r.None? ==> freeInteriors == 0 && inUse == old(inUse) && Waiting()
      ensures r.Some? ==> InteriorSlot(r.value) !in old(inUse) && inUse == old(inUse) + {InteriorSlot(r.value)}
      ensures old(Supply()).idle && old(freeInteriors) == 0 ==> r.None? && Supply() == old(Supply())
    {
      hide ValidSlots, ValidQueues, ValidCursors, QueueBag, YoungLeft, OldLeft, Moved;
      ReclaimNow();
      r := PopFreeInterior();
    }

    method AllocInterior() returns (r: Option<nat>)
      requires Valid()
      modifies this
      ensures Valid() && Undisturbed() && SameGuard()
      ensures r.None? ==> freeInteriors == 0 && inUse == old(inUse) && Waiting()
                          && (high < low + INTERIOR_SLOT || interiors == RESERVED_INTERIOR)
      ensures InteriorTaken(old(Supply()), Supply(), r.Some?)
      ensures r.Some? ==> InteriorSlot(r.value) !in old(inUse) && inUse == old(inUse) + {InteriorSlot(r.value)}
    {
      hide ValidSlots, ValidQueues, QueueBag;
      r := PopFreeInterior();
      if r == None {
        r := BumpInterior();
        if r == None {
          r := ReclaimedInterior();
        }
      }
    }

    method AllocWriteChunk(c: Chunk) returns (r: Option<nat>)
      requires Valid()
      modifies this
      ensures Valid() && SameGuard() && Undisturbed()
      ensures r.None? ==> freeChunks == 0 && low + CHUNK_SLOT > high && inUse == old(inUse) && Waiting()
      ensures ChunkTaken(old(Supply()), Supply(), r.Some?)
      ensures r.Some? ==> ChunkSlot(r.value) !in old(inUse) && inUse == old(inUse) + {ChunkSlot(r.value)}
      ensures r.Some? ==> ChunkSlot(r.value) in mem && mem[ChunkSlot(r.value)] == ChunkNode(c)
    {
      hide ValidSlots, ValidQueues, QueueBag;
      r := AllocChunk();
      if r.Some? {
        WriteUsed(mem, inUse, PendingBag(), freeChunkHead, chunkList, freeInteriorHead, interiorList,
                  chunks, interiors, ChunkSlot(r.value), ChunkNode(c));
        NotPending(ChunkSlot(r.value));
        mem := mem[ChunkSlot(r.value) := ChunkNode(c)];
      }
    }

    method AllocWriteInterior(left: Slot, right: Slot, count: nat, key: nat) returns (r: Option<nat>)
      requires Valid()
      modifies this
      ensures Valid() && SameGuard() && Undisturbed()
      ensures r.None? ==> freeInteriors == 0 && inUse == old(inUse) && Waiting()
                          && (high < low + INTERIOR_SLOT || interiors == RESERVED_INTERIOR)
      ensures InteriorTaken(old(Supply()), Supply(), r.Some?)
      ensures r.Some? ==> InteriorSlot(r.value) !in old(inUse) && inUse == old(inUse) + {InteriorSlot(r.value)}
      ensures r.Some? ==> InteriorSlot(r.value) in mem && mem[InteriorSlot(r.value)] == InteriorNode(left, right, count, key)
    {
      hide ValidSlots, ValidQueues, QueueBag;
      r := AllocInterior();
      if r.Some? {
        WriteUsed(mem, inUse, PendingBag(), freeChunkHead, chunkList, freeInteriorHead, interiorList,
                  chunks, interiors, InteriorSlot(r.value), InteriorNode(left, right, count, key));
        NotPending(InteriorSlot(r.value));
        mem := mem[InteriorSlot(r.value) := InteriorNode(left, right, count, key)];
      }
    }

    lemma NotPending(s: Slot)
      requires Valid() && s in inUse
      ensures s !in PendingBag() && s in mem && Below(s, chunks, interiors)
    {
      hide QueueBag, ValidQueues;
      OnePlace(inUse, PendingBag(), IdxBag(false, chunkList) + IdxBag(true, interiorList), chunks, interiors, s);
    }

    // -- Retirement -----------------------------------------------------------

    /** Split logged indices by the cursor the guard started from. */
    method Partition(idx: seq<nat>, start: nat) returns (young: seq<nat>, aged: seq<nat>)
      ensures young == Part(idx, start, true) && aged == Part(idx, start, false)
      ensures (forall x :: x in young ==> x >= start) && (forall x :: x in aged ==> x < start)
      ensures InOrder(young, idx) && InOrder(aged, idx) && multiset(young) + multiset(aged) == multiset(idx)
    {
      young, aged := [], [];
      assert idx[..0] == [];
      for k := 0 to |idx|
        invariant young == Part(idx[..k], start, true) && aged == Part(idx[..k], start, false)
      {
        assert idx[..k + 1][..k] == idx[..k];
        if idx[k] >= start {
          young := young + [idx[k]];
        } else {
          aged := aged + [idx[k]];
        }
      }
      assert idx[..|idx|] == idx;
      PartSides(idx, start);
    }

    /** Partition the log, stamp both parts, and queue them. */
    method StampLog(log: RetireLog, stamp: nat)
      requires Valid() && log.Contents() <= multiset(inUse) && stamp >= lastStamp
      requires log.chunks != [] || log.interiors != []
      modifies this`inUse, this`lastStamp, this`pendingYoung, this`pendingOld, log
      ensures Valid() && log.chunks == [] && log.interiors == [] && lastStamp == stamp
      ensures inUse == old(inUse) - Members(old(log.Contents()), old(inUse))
      ensures PendingBag() == old(PendingBag()) + old(log.Contents())
      ensures pendingYoung == Enqueue(old(pendingYoung), Stamped(old(log.chunks), old(log.interiors), stamp, phase + 2, true))
      ensures pendingOld == Enqueue(old(pendingOld), Stamped(old(log.chunks), old(log.interiors), stamp, phase + 2, false))
    {
      hide ValidSlots, ValidQueues, ValidCursors, QueueBag, BatchBag, Part, Enqueue, IdxBag;
      var youngChunks, oldChunks := Partition(log.chunks, youngChunkStart);
      var youngInteriors, oldInteriors := Partition(log.interiors, youngInteriorStart);
      var young := Batch(stamp, phase + 2, youngChunks, youngInteriors);
      var aged := Batch(stamp, phase + 2, oldChunks, oldInteriors);
      RetireSlots(mem, inUse, pendingYoung, pendingOld, freeChunkHead, chunkList, freeInteriorHead, interiorList,
                  chunks, interiors, log.chunks, log.interiors, young, aged, youngChunkStart, youngInteriorStart);
      RetireQueues(pendingYoung, pendingOld, lastStamp, phase, young, aged);
      inUse := inUse - Members(log.Contents(), inUse);
      lastStamp := stamp;
      log.chunks, log.interiors := [], [];
      pendingYoung := Enqueue(pendingYoung, young);
      pendingOld := Enqueue(pendingOld, aged);
    }

    /** One side of a retired log, as the batch that queues it. */
    ghost function Stamped(logChunks: seq<nat>, logInteriors: seq<nat>, stamp: nat, grace: nat, young: bool): Batch
      reads this`youngChunkStart, this`youngInteriorStart
    {
      Batch(stamp, grace, Part(logChunks, youngChunkStart, young), Part(logInteriors, youngInteriorStart, young))
    }

    /** Stamp a log that is not empty, and free whatever is ready then. */
    method StampAndReclaim(log: RetireLog, stamp: nat, ghost young: seq<Batch>, ghost aged: seq<Batch>)
      requires Valid() && log.Contents() <= multiset(inUse) && stamp >= lastStamp
      requires log.chunks != [] || log.interiors != []
      requires young == Enqueue(pendingYoung, Stamped(log.chunks, log.interiors, stamp, phase + 2, true))
      requires aged == Enqueue(pendingOld, Stamped(log.chunks, log.interiors, stamp, phase + 2, false))
      modifies this, log
      ensures Valid() && Undisturbed() && lastStamp == stamp
      ensures youngChunkStart == old(youngChunkStart) && youngInteriorStart == old(youngInteriorStart)
      ensures low == old(low) && high == old(high) && chunks == old(chunks) && interiors == old(interiors)
      ensures log.chunks == [] && log.interiors == []
      ensures inUse == old(inUse) - Members(old(log.Contents()), old(inUse))
      ensures phase == Moved(young, aged, old(phase), readers(old(asked))) && asked == old(asked) + 1 && Waiting()
      ensures YoungLeft(young, pendingYoung, phase) && OldLeft(aged, pendingOld, phase, readers(old(asked)).minPinned)
      ensures freeChunks + Queued(pendingYoung, false) + Queued(pendingOld, false)
              == old(freeChunks) + Queued(young, false) + Queued(aged, false)
      ensures freeInteriors + Queued(pendingYoung, true) + Queued(pendingOld, true)
              == old(freeInteriors) + Queued(young, true) + Queued(aged, true)
    {
      hide Valid, QueueBag, BatchBag, YoungLeft, OldLeft, Moved, Waiting, Enqueue, Part, Queued, Supply, IdxBag, Members, Leaner, PendingBag;
      StampLog(log, stamp);
      assert pendingYoung == young && pendingOld == aged;
      label queued:
      ReclaimNow();
      assert Undisturbed@queued();
    }

    /** Before a log is stamped: which side each of its slots goes to, and that none of them is queued. */
    lemma LoggedSides(log: RetireLog, y: Batch, o: Batch)
      requires Valid() && log.Contents() <= multiset(inUse) && y.stamp == o.stamp >= lastStamp && y.grace == o.grace == phase + 2
      requires y == Stamped(log.chunks, log.interiors, y.stamp, y.grace, true) && o == Stamped(log.chunks, log.interiors, y.stamp, y.grace, false)
      ensures Rising(pendingYoung, y.stamp, y.grace) && Rising(pendingOld, o.stamp, o.grace)
      ensures forall s :: s in log.Contents() ==> Sided(s, pendingYoung, pendingOld, y, o, Below(s, youngChunkStart, youngInteriorStart))
      ensures forall s :: s in log.Contents() ==> s in inUse && Below(s, chunks, interiors)
    {
      hide ValidSlots, ValidCursors, QueueBag, IdxBag, Part, Rising;
      RisingLater(pendingYoung, lastStamp, phase + 2, y.stamp);
      RisingLater(pendingOld, lastStamp, phase + 2, y.stamp);
      forall s | s in log.Contents() 
        ensures Sided(s, pendingYoung, pendingOld, y, o, Below(s, youngChunkStart, youngInteriorStart)) && s in inUse && Below(s, chunks, interiors)
      {
        LoggedMember(log.chunks, log.interiors, youngChunkStart, youngInteriorStart, y, o, s);
        assert s in multiset(inUse);
        NotPending(s);
        QueueMembers(pendingYoung, s);
        QueueMembers(pendingOld, s);
      }
    }

    /** After the drain: where each of its slots has come, and each slot that was queued as old before it. */
    lemma LoggedFates(logged: multiset<Slot>, young: seq<Batch>, aged: seq<Batch>, y: Batch, o: Batch, minPinned: nat)
      requires Valid() && Rising(young, y.stamp, y.grace) && Rising(aged, o.stamp, o.grace) && y.stamp == o.stamp && y.grace == o.grace
      requires YoungLeft(Enqueue(young, y), pendingYoung, phase) && OldLeft(Enqueue(aged, o), pendingOld, phase, minPinned)
      requires forall s :: s in logged ==> Sided(s, young, aged, y, o, Below(s, youngChunkStart, youngInteriorStart))
      requires forall s :: s in logged ==> s !in inUse && Below(s, chunks, interiors)
      ensures Recycling(logged, y.stamp, y.grace, minPinned)
      ensures forall b, s :: b in aged && InBatch(b, s) ==> StillHeld(s, b, pendingOld, FreeBag(), phase, minPinned)
    {
      hide Valid, Fate, StillHeld, YoungLeft, OldLeft, Enqueue, Rising, InBatch, FreeBag, InQueue;
      forall s | s in logged
        ensures Fate(s, pendingYoung, pendingOld, FreeBag(), Below(s, youngChunkStart, youngInteriorStart), y.stamp, y.grace, phase, minPinned)
      {
        FreeOrQueued(s);
        NewFate(s, young, aged, y, o, pendingYoung, pendingOld, FreeBag(), Below(s, youngChunkStart, youngInteriorStart), phase, minPinned);
      }
      forall b, s | b in aged && InBatch(b, s) ensures StillHeld(s, b, pendingOld, FreeBag(), phase, minPinned) {
        FreeOrQueued(s);
        OldFate(s, b, aged, o, pendingOld, FreeBag(), phase, minPinned);
      }
    }

    /** A later reclamation keeps to the same requirements, by the higher of two answers of the pins at most. */
    lemma StillRecycling(logged: multiset<Slot>, stamp: nat, grace: nat, minPinned: nat, minPinned': nat, young: seq<Batch>, aged: seq<Batch>,
                         free: multiset<Slot>, phase0: nat)
      requires Valid() && phase0 <= phase && YoungLeft(young, pendingYoung, phase) && OldLeft(aged, pendingOld, phase, minPinned')
      requires forall s :: s in logged ==> s !in inUse && Below(s, chunks, interiors)
      requires forall s :: s in logged ==> Fate(s, young, aged, free, Below(s, youngChunkStart, youngInteriorStart), stamp, grace, phase0, minPinned)
      ensures Recycling(logged, stamp, grace, Max(minPinned, minPinned'))
    {
      hide Valid, Fate, YoungLeft, OldLeft, InQueue, FreeBag;
      forall s | s in logged
        ensures Fate(s, pendingYoung, pendingOld, FreeBag(), Below(s, youngChunkStart, youngInteriorStart), stamp, grace, phase, Max(minPinned, minPinned'))
      {
        FreeOrQueued(s);
        FateLater(s, young, aged, pendingYoung, pendingOld, free, FreeBag(), Below(s, youngChunkStart, youngInteriorStart),
                  stamp, grace, phase0, phase, minPinned, minPinned');
      }
    }

    lemma NoneRecycling(stamp: nat, grace: nat, minPinned: nat)
      ensures Recycling(multiset{}, stamp, grace, minPinned)
    {
    }

    lemma FreeOrQueued(s: Slot)
      requires Valid()
      ensures s in FreeBag() ==> !InQueue(pendingYoung, s) && !InQueue(pendingOld, s)
      ensures s !in inUse && Below(s, chunks, interiors) ==> s in FreeBag() || InQueue(pendingYoung, s) || InQueue(pendingOld, s)
    {
      hide QueueBag, ValidQueues, ValidCursors, IdxBag, InQueue;
      OnePlace(inUse, PendingBag(), FreeBag(), chunks, interiors, s);
      QueueMembers(pendingYoung, s);
      QueueMembers(pendingOld, s);
    }

    /**
     * Stamp the log with `stamp` and the phase that outwaits every reader now in the gate, queue its
     * young and old parts, and free whatever is ready. Where no reader is ever found in the gate, a young
     * log goes straight to the free lists.
     */
    method Retire(log: RetireLog, stamp: nat)
      requires Valid() && log.Contents() <= multiset(inUse) && stamp >= lastStamp
      modifies this, log
      ensures Valid() && Undisturbed()
      ensures youngChunkStart == old(youngChunkStart) && youngInteriorStart == old(youngInteriorStart)
      ensures log.chunks == [] && log.interiors == []
      ensures inUse == old(inUse) - Members(old(log.Contents()), old(inUse))
      ensures lastStamp == (if old(log.chunks) == [] && old(log.interiors) == [] then old(lastStamp) else stamp)
      ensures old(phase) <= phase <= old(phase) + 2
      ensures asked == old(asked) + (if old(log.chunks) == [] && old(log.interiors) == [] then 0 else 1)
      ensures Recycling(old(log.Contents()), stamp, old(phase) + 2, readers(old(asked)).minPinned)
      ensures old(log.chunks) != [] || old(log.interiors) != [] ==> Waiting()
      ensures old(log.chunks) != [] || old(log.interiors) != [] ==>
        forall b, s :: b in old(pendingOld) && InBatch(b, s) ==>
          StillHeld(s, b, pendingOld, FreeBag(), phase, readers(old(asked)).minPinned)
      ensures old(Supply()).idle && old(Young(log)) && Quiet() ==>
        Supply() == old(Supply()).(freeChunks := old(freeChunks + |log.chunks|), freeInteriors := old(freeInteriors + |log.interiors|))
    {
      hide Valid, QueueBag, BatchBag, YoungLeft, OldLeft, Waiting, Enqueue, Part, Queued, Recycling, StillHeld, InBatch, FreeBag;
      if log.chunks == [] && log.interiors == [] {
        EmptyLog(log.chunks, log.interiors, inUse);
        NoneRecycling(stamp, phase + 2, readers(asked).minPinned);
        return;
      }
      ghost var answer := readers(asked);
      ghost var idle := Supply().idle && Young(log);
      ghost var y, o := Stamped(log.chunks, log.interiors, stamp, phase + 2, true), Stamped(log.chunks, log.interiors, stamp, phase + 2, false);
      if idle {
        YoungOnly(log.chunks, log.interiors, youngChunkStart, youngInteriorStart, y, o, phase, answer.minPinned);
      }
      ghost var young, aged, logged := pendingYoung, pendingOld, log.Contents();
      LoggedSides(log, y, o);
      StampAndReclaim(log, stamp, Enqueue(pendingYoung, y), Enqueue(pendingOld, o));
      LoggedFates(logged, young, aged, y, o, answer.minPinned);
      if idle && answer.emptyNext && answer.emptyAfter {
        AllDrained(y, pendingYoung, pendingOld, phase, answer.minPinned);
      }
    }
  }
}
