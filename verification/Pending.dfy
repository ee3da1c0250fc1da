/** Queues of retired slots waiting for reader grace and, for old slots, for snapshot pins. */
module Pending {
  import opened Options
  import opened Trees

  const COALESCE_SLOTS: nat := 4096

  /** Slots retired together, with the gate phase and the epoch they must outwait. */
  datatype Batch = Batch(stamp: nat, grace: nat, chunks: seq<nat>, interiors: seq<nat>)

  function Len(b: Batch): nat {
    |b.chunks| + |b.interiors|
  }

  ghost function IdxBag(interior: bool, idx: seq<nat>): multiset<Slot> {
    if idx == [] then multiset{}
    else IdxBag(interior, idx[..|idx| - 1]) + multiset{SlotOf(interior, idx[|idx| - 1])}
  }

  ghost function Bag(chunks: seq<nat>, interiors: seq<nat>): multiset<Slot> {
    IdxBag(false, chunks) + IdxBag(true, interiors)
  }

  ghost function BatchBag(b: Batch): multiset<Slot> {
    Bag(b.chunks, b.interiors)
  }

  ghost function QueueBag(q: seq<Batch>): multiset<Slot> {
    if q == [] then multiset{} else QueueBag(q[..|q| - 1]) + BatchBag(q[|q| - 1])
  }

  /**
   * Fold a batch into the newest one while the merge stays within COALESCE_SLOTS, else append it.
   * The merged batch takes the larger requirement of the two.
   */
  function Enqueue(q: seq<Batch>, b: Batch): seq<Batch> {
    if Len(b) == 0 then q
    else if q != [] && Len(q[|q| - 1]) + Len(b) <= COALESCE_SLOTS then
      q[..|q| - 1] + [Merge(q[|q| - 1], b)]
    else q + [b]
  }

  function Merge(a: Batch, b: Batch): Batch {
    Batch(Max(a.stamp, b.stamp), Max(a.grace, b.grace), a.chunks + b.chunks, a.interiors + b.interiors)
  }

  /** Requirements never decrease along the queue and never exceed the newest ones handed out. */
  ghost predicate Rising(q: seq<Batch>, stamp: nat, grace: nat) {
    && (forall i, j :: 0 <= i < j < |q| ==> q[i].stamp <= q[j].stamp && q[i].grace <= q[j].grace)
    && (forall i :: 0 <= i < |q| ==> q[i].stamp <= stamp && q[i].grace <= grace)
  }

  /** No batch is empty, and no two neighbours could have been merged. */
  ghost predicate Spread(q: seq<Batch>) {
    && (forall i :: 0 <= i < |q| ==> Len(q[i]) > 0)
    && (forall i :: 0 <= i < |q| - 1 ==> Len(q[i]) + Len(q[i + 1]) > COALESCE_SLOTS)
  }

  /** Young batches wait for the gate only (`pins` is None); old ones also for every older pin. */
  predicate Ready(b: Batch, phase: nat, pins: Option<nat>) {
    b.grace <= phase && (pins.Some? ==> b.stamp <= pins.value)
  }

  /** The slot is one of the batch. */
  predicate InBatch(b: Batch, s: Slot) {
    match s
    case ChunkSlot(i) => i in b.chunks
    case InteriorSlot(i) => i in b.interiors
  }

  ghost predicate InQueue(q: seq<Batch>, s: Slot) {
    exists b :: b in q && InBatch(b, s)
  }

  /** `q'` is `q` without its leading ready batches, and nothing ready is left behind. */
  ghost predicate Drained(q: seq<Batch>, q': seq<Batch>, phase: nat, pins: Option<nat>) {
    exists k: nat :: DrainedBy(q, q', phase, pins, k)
  }

  ghost predicate DrainedBy(q: seq<Batch>, q': seq<Batch>, phase: nat, pins: Option<nat>, k: nat) {
    && k <= |q| && q' == q[k..]
    && (forall i :: 0 <= i < k ==> Ready(q[i], phase, pins))
    && (forall i :: k <= i < |q| ==> !Ready(q[i], phase, pins))
  }

  /** A queue of young batches after a reclamation: those that left had outwaited the gate, those that stayed have not. */
  ghost predicate YoungLeft(q: seq<Batch>, q': seq<Batch>, phase: nat) {
    && (forall b :: b in q' ==> b in q && b.grace > phase)
    && (forall b :: b in q && b !in q' ==> b.grace <= phase)
  }

  /** A queue of old batches: those that left had outwaited the gate and every older pin as well. */
  ghost predicate OldLeft(q: seq<Batch>, q': seq<Batch>, phase: nat, minPinned: nat) {
    && (forall b :: b in q' ==> b in q && (b.grace > phase || b.stamp > minPinned))
    && (forall b :: b in q && b !in q' ==> b.grace <= phase && b.stamp <= minPinned)
  }

  lemma YoungDrained(q: seq<Batch>, q': seq<Batch>, phase: nat)
    requires Drained(q, q', phase, None)
    ensures YoungLeft(q, q', phase)
  {
    var k :| DrainedBy(q, q', phase, None, k);
    forall b | b in q && b.grace > phase ensures b in q' {
      var i :| 0 <= i < |q| && q[i] == b;
      assert q'[i - k] == b;
    }
  }

  lemma OldDrained(q: seq<Batch>, q': seq<Batch>, phase: nat, minPinned: nat)
    requires Drained(q, q', phase, Some(minPinned))
    ensures OldLeft(q, q', phase, minPinned)
  {
    var k :| DrainedBy(q, q', phase, Some(minPinned), k);
    forall b | b in q && (b.grace > phase || b.stamp > minPinned) ensures b in q' {
      var i :| 0 <= i < |q| && q[i] == b;
      assert q'[i - k] == b;
    }
  }

  // -- Bags -------------------------------------------------------------------

  lemma {:induction false} IdxBagConcat(interior: bool, a: seq<nat>, b: seq<nat>)
    ensures IdxBag(interior, a + b) == IdxBag(interior, a) + IdxBag(interior, b)
  {
    if b == [] {
      assert a + b == a;
    } else {
      var init, last := b[..|b| - 1], b[|b| - 1];
      IdxBagConcat(interior, a, init);
      assert (a + b)[..|a + b| - 1] == a + init && (a + b)[|a + b| - 1] == last;
      BagAssoc(IdxBag(interior, a), IdxBag(interior, init), multiset{SlotOf(interior, last)});
    }
  }

  lemma {:induction false} IdxBagMembers(interior: bool, idx: seq<nat>, s: Slot)
    ensures s in IdxBag(interior, idx) <==> s.InteriorSlot? == interior && s.idx in idx
  {
    if idx != [] {
      var init, last := idx[..|idx| - 1], idx[|idx| - 1];
      IdxBagMembers(interior, init, s);
      assert idx == init + [last];
    }
  }

  lemma BatchMembers(b: Batch, s: Slot)
    ensures s in BatchBag(b) <==> InBatch(b, s)
  {
    IdxBagMembers(false, b.chunks, s);
    IdxBagMembers(true, b.interiors, s);
  }

  lemma {:induction false} QueueMembers(q: seq<Batch>, s: Slot)
    ensures s in QueueBag(q) <==> InQueue(q, s)
  {
    if q != [] {
      var init, last := q[..|q| - 1], q[|q| - 1];
      QueueMembers(init, s);
      BatchMembers(last, s);
      assert q == init + [last];
      assert forall b :: b in q <==> b in init || b == last;
    }
  }

  lemma {:induction false} QueueBagConcat(a: seq<Batch>, b: seq<Batch>)
    ensures QueueBag(a + b) == QueueBag(a) + QueueBag(b)
    decreases |b|, 1
  {
    hide BatchBag;
    if b == [] {
      assert a + b == a;
    } else {
      hide QueueBag;
      QueueBagConcatMore(a, b);
    }
  }

  lemma QueueBagConcatMore(a: seq<Batch>, b: seq<Batch>)
    requires b != []
    ensures QueueBag(a + b) == QueueBag(a) + QueueBag(b)
    decreases |b|, 0
  {
    hide QueueBag, BatchBag;
    var init, last := b[..|b| - 1], b[|b| - 1];
    QueueBagSnoc(a + b);
    QueueBagSnoc(b);
    QueueBagConcat(a, init);
    assert (a + b)[..|a + b| - 1] == a + init && (a + b)[|a + b| - 1] == last;
    BagAssoc(QueueBag(a), QueueBag(init), BatchBag(last));
  }

  lemma QueueBagSnoc(q: seq<Batch>)
    requires q != []
    ensures QueueBag(q) == QueueBag(q[..|q| - 1]) + BatchBag(q[|q| - 1])
  {
    hide BatchBag;
  }

  lemma BagAssoc(a: multiset<Slot>, b: multiset<Slot>, c: multiset<Slot>)
    ensures (a + b) + c == a + (b + c)
  {
  }

  lemma QueueBagSingle(b: Batch)
    ensures QueueBag([b]) == BatchBag(b)
  {
    assert [b][..0] == [];
  }

  lemma EmptyBatchBag(b: Batch)
    requires Len(b) == 0
    ensures BatchBag(b) == multiset{}
  {
  }

  lemma MergeBag(a: Batch, b: Batch)
    ensures BatchBag(Merge(a, b)) == BatchBag(a) + BatchBag(b)
  {
    IdxBagConcat(false, a.chunks, b.chunks);
    IdxBagConcat(true, a.interiors, b.interiors);
  }

  /** Coalescing loses no slot and invents none. */
  lemma EnqueueBag(q: seq<Batch>, b: Batch)
    ensures QueueBag(Enqueue(q, b)) == QueueBag(q) + BatchBag(b)
  {
    if Len(b) == 0 {
      EmptyBatchBag(b);
    } else if q != [] && Len(q[|q| - 1]) + Len(b) <= COALESCE_SLOTS {
      var init, last := q[..|q| - 1], q[|q| - 1];
      MergeBag(last, b);
      QueueBagConcat(init, [Merge(last, b)]);
      QueueBagSingle(Merge(last, b));
    } else {
      QueueBagConcat(q, [b]);
      QueueBagSingle(b);
    }
  }

  // -- What becomes of a queued slot --------------------------------------------

  /**
   * Where a retired slot has come: to a free list, or into a batch of its own side under exactly its
   * requirements. A slot older than its guard is never queued as young, and is free only when no pin is
   * older than its stamp; and no slot is free before its grace phase.
   */
  ghost predicate Fate(s: Slot, young: seq<Batch>, aged: seq<Batch>, free: multiset<Slot>, older: bool, stamp: nat, grace: nat,
                       phase: nat, minPinned: nat) {
    && (s in free <==> !InQueue(young, s) && !InQueue(aged, s))
    && (forall b :: b in young && InBatch(b, s) ==> !older && b.stamp == stamp && b.grace == grace)
    && (forall b :: b in aged && InBatch(b, s) ==> older && b.stamp == stamp && b.grace == grace)
    && (s in free ==> grace <= phase && (older ==> stamp <= minPinned))
  }

  /**
   * A slot of the old queue's batch `b`, later: still queued under no lesser requirements, or these were met. A batch
   * that took on greater ones is within the coalescing limit.
   */
  ghost predicate StillHeld(s: Slot, b: Batch, aged: seq<Batch>, free: multiset<Slot>, phase: nat, minPinned: nat) {
    && (s in free ==> b.grace <= phase && b.stamp <= minPinned)
    && (b.grace > phase || b.stamp > minPinned ==>
          exists c :: c in aged && InBatch(c, s) && b.stamp <= c.stamp && b.grace <= c.grace && (c == b || Len(c) <= 4096))
  }

  lemma EnqueuedNew(q: seq<Batch>, b: Batch, s: Slot)
    requires Rising(q, b.stamp, b.grace) && !InQueue(q, s)
    ensures forall c :: c in Enqueue(q, b) && InBatch(c, s) ==> InBatch(b, s) && c.stamp == b.stamp && c.grace == b.grace
    ensures InBatch(b, s) ==> exists c :: c in Enqueue(q, b) && InBatch(c, s)
  {
    if q != [] {
      var last := q[|q| - 1];
      assert !InBatch(last, s);
      assert Merge(last, b) == Batch(b.stamp, b.grace, last.chunks + b.chunks, last.interiors + b.interiors);
      assert Len(b) > 0 ==> Enqueue(q, b)[|Enqueue(q, b)| - 1] in Enqueue(q, b);
    } else if Len(b) > 0 {
      assert Enqueue(q, b) == [b] && b in [b];
    }
    assert forall c :: c in q ==> !InBatch(c, s);
  }

  lemma EnqueuedOld(q: seq<Batch>, b: Batch, s: Slot, c: Batch) returns (d: Batch)
    requires Rising(q, b.stamp, b.grace) && c in q && InBatch(c, s)
    ensures d in Enqueue(q, b) && InBatch(d, s) && c.stamp <= d.stamp && c.grace <= d.grace && (d == c || Len(d) <= 4096)
  {
    var last := q[|q| - 1];
    if Len(b) > 0 && Len(last) + Len(b) <= COALESCE_SLOTS && c == last {
      d := Merge(last, b);
      assert Enqueue(q, b)[|q| - 1] == d;
    } else {
      d := c;
      var i :| 0 <= i < |q| && q[i] == c;
      assert Enqueue(q, b)[i] == c;
    }
  }

  /** A slot of a log that was split, queued and drained. */
  lemma NewFate(s: Slot, young: seq<Batch>, aged: seq<Batch>, y: Batch, o: Batch, young': seq<Batch>, aged': seq<Batch>,
                free: multiset<Slot>, older: bool, phase: nat, minPinned: nat)
    requires Rising(young, y.stamp, y.grace) && Rising(aged, o.stamp, o.grace) && o.stamp == y.stamp && o.grace == y.grace
    requires !InQueue(young, s) && !InQueue(aged, s)
    requires (InBatch(o, s) <==> older) && (InBatch(y, s) <==> !older)
    requires YoungLeft(Enqueue(young, y), young', phase) && OldLeft(Enqueue(aged, o), aged', phase, minPinned)
    requires s in free <==> !InQueue(young', s) && !InQueue(aged', s)
    ensures Fate(s, young', aged', free, older, y.stamp, y.grace, phase, minPinned)
  {
    hide Enqueue, Rising, InBatch;
    EnqueuedNew(young, y, s);
    EnqueuedNew(aged, o, s);
  }

  /** A slot of the old queue, over an enqueueing and a drain. */
  lemma OldFate(s: Slot, b: Batch, aged: seq<Batch>, o: Batch, aged': seq<Batch>, free: multiset<Slot>, phase: nat, minPinned: nat)
    requires Rising(aged, o.stamp, o.grace) && b in aged && InBatch(b, s)
    requires OldLeft(Enqueue(aged, o), aged', phase, minPinned)
    requires s in free ==> !InQueue(aged', s)
    ensures StillHeld(s, b, aged', free, phase, minPinned)
  {
    hide Enqueue, Rising, InBatch;
    var d := EnqueuedOld(aged, o, s, b);
  }

  lemma FateLater(s: Slot, young: seq<Batch>, aged: seq<Batch>, young': seq<Batch>, aged': seq<Batch>, free: multiset<Slot>, free': multiset<Slot>,
                  older: bool, stamp: nat, grace: nat, phase: nat, phase': nat, minPinned: nat, minPinned': nat)
    requires Fate(s, young, aged, free, older, stamp, grace, phase, minPinned) && phase <= phase'
    requires YoungLeft(young, young', phase') && OldLeft(aged, aged', phase', minPinned')
    requires s in free' <==> !InQueue(young', s) && !InQueue(aged', s)
    ensures Fate(s, young', aged', free', older, stamp, grace, phase', Max(minPinned, minPinned'))
  {
    hide InBatch;
  }

  // -- Order and count --------------------------------------------------------

  /** Enqueueing the newest requirements keeps both orders and the spacing. */
  lemma EnqueueKeeps(q: seq<Batch>, b: Batch, stamp: nat, grace: nat)
    requires Rising(q, b.stamp, b.grace) && Spread(q)
    requires b.stamp <= stamp && b.grace <= grace
    ensures Rising(Enqueue(q, b), stamp, grace) && Spread(Enqueue(q, b))
  {
    hide COALESCE_SLOTS;
    if Len(b) > 0 {
      var merge := q != [] && Len(q[|q| - 1]) + Len(b) <= COALESCE_SLOTS;
      var init := if merge then q[..|q| - 1] else q;
      var last := if merge then Merge(q[|q| - 1], b) else b;
      assert Rising(init, last.stamp, last.grace) && Spread(init);
      assert init != [] ==> Len(init[|init| - 1]) + Len(last) > COALESCE_SLOTS;
      SnocKeeps(init, last, stamp, grace);
    }
  }

  lemma SnocKeeps(q: seq<Batch>, b: Batch, stamp: nat, grace: nat)
    requires Rising(q, b.stamp, b.grace) && Spread(q) && Len(b) > 0
    requires b.stamp <= stamp && b.grace <= grace
    requires q != [] ==> Len(q[|q| - 1]) + Len(b) > COALESCE_SLOTS
    ensures Rising(q + [b], stamp, grace) && Spread(q + [b])
  {
  }

  lemma DrainKeeps(q: seq<Batch>, k: nat, stamp: nat, grace: nat)
    requires Rising(q, stamp, grace) && Spread(q) && k <= |q|
    ensures Rising(q[k..], stamp, grace) && Spread(q[k..])
  {
  }

  /** A front batch that is not ready holds back only batches that are not ready either. */
  lemma FrontDecides(q: seq<Batch>, k: nat, stamp: nat, grace: nat, phase: nat, pins: Option<nat>)
    requires Rising(q, stamp, grace) && k <= |q|
    requires forall i :: 0 <= i < k ==> Ready(q[i], phase, pins)
    requires k < |q| ==> !Ready(q[k], phase, pins)
    ensures Drained(q, q[k..], phase, pins)
  {
    forall i | k <= i < |q| ensures !Ready(q[i], phase, pins) {
      assert k < i ==> q[k].stamp <= q[i].stamp && q[k].grace <= q[i].grace;
    }
    assert DrainedBy(q, q[k..], phase, pins, k);
  }

  /** The entries on one side of the guard's starting cursor, in order. */
  function Part(idx: seq<nat>, start: nat, young: bool): seq<nat> {
    if idx == [] then []
    else
      var init, last := Part(idx[..|idx| - 1], start, young), idx[|idx| - 1];
      if (start <= last) == young then init + [last] else init
  }

  /** Some of `b`'s entries, in the order they have there. */
  ghost predicate InOrder(a: seq<nat>, b: seq<nat>) {
    exists at: seq<nat> :: Picked(a, b, at)
  }

  ghost predicate Picked(a: seq<nat>, b: seq<nat>, at: seq<nat>) {
    && |at| == |a| && (forall k :: 0 <= k < |a| ==> at[k] < |b| && a[k] == b[at[k]])
    && forall j, k :: 0 <= j < k < |at| ==> at[j] < at[k]
  }

  lemma {:induction false} PartPicked(idx: seq<nat>, start: nat, young: bool) returns (at: seq<nat>)
    ensures Picked(Part(idx, start, young), idx, at)
    ensures forall x :: x in Part(idx, start, young) <==> x in idx && (start <= x <==> young)
  {
    at := [];
    if idx != [] {
      var init, last := idx[..|idx| - 1], idx[|idx| - 1];
      at := PartPicked(init, start, young);
      hide Picked;
      PickedSnoc(Part(init, start, young), init, last, at);
      assert idx == init + [last];
      if (start <= last) == young {
        at := at + [|init|];
      }
    }
  }

  lemma PickedSnoc(a: seq<nat>, b: seq<nat>, x: nat, at: seq<nat>)
    requires Picked(a, b, at)
    ensures Picked(a, b + [x], at) && Picked(a + [x], b + [x], at + [|b|])
  {
  }

  /** The two sides: what lies at or past the start, and what lies below, each in the order of the log. */
  ghost predicate Sides(idx: seq<nat>, start: nat, young: seq<nat>, aged: seq<nat>) {
    && (forall x :: x in young ==> x >= start) && (forall x :: x in aged ==> x < start)
    && InOrder(young, idx) && InOrder(aged, idx) && multiset(young) + multiset(aged) == multiset(idx)
  }

  lemma PartMembers(idx: seq<nat>, start: nat)
    ensures forall x :: x in Part(idx, start, true) <==> x in idx && x >= start
    ensures forall x :: x in Part(idx, start, false) <==> x in idx && x < start
  {
    var atYoung := PartPicked(idx, start, true);
    var atAged := PartPicked(idx, start, false);
  }

  lemma PartSides(idx: seq<nat>, start: nat)
    ensures Sides(idx, start, Part(idx, start, true), Part(idx, start, false))
  {
    var atYoung := PartPicked(idx, start, true);
    var atAged := PartPicked(idx, start, false);
    PartMultiset(idx, start);
  }

  lemma {:induction false} PartMultiset(idx: seq<nat>, start: nat)
    ensures multiset(Part(idx, start, true)) + multiset(Part(idx, start, false)) == multiset(idx)
  {
    if idx != [] {
      PartMultiset(idx[..|idx| - 1], start);
      assert idx == idx[..|idx| - 1] + [idx[|idx| - 1]];
    }
  }

  lemma {:induction false} PartBag(interior: bool, idx: seq<nat>, start: nat)
    ensures IdxBag(interior, Part(idx, start, true)) + IdxBag(interior, Part(idx, start, false)) == IdxBag(interior, idx)
  {
    if idx != [] {
      var init, last := idx[..|idx| - 1], idx[|idx| - 1];
      PartBag(interior, init, start);
      var grown := Part(init, start, start <= last) + [last];
      assert grown[..|grown| - 1] == Part(init, start, start <= last);
    }
  }

  lemma IdxBagHead(interior: bool, idx: seq<nat>)
    requires idx != []
    ensures IdxBag(interior, idx) == IdxBag(interior, idx[1..]) + multiset{SlotOf(interior, idx[0])}
  {
    IdxBagConcat(interior, [idx[0]], idx[1..]);
    assert idx == [idx[0]] + idx[1..];
    assert [idx[0]][..0] == [];
  }

  lemma QueueBagHead(q: seq<Batch>)
    requires q != []
    ensures QueueBag(q) == QueueBag(q[1..]) + BatchBag(q[0])
  {
    QueueBagConcat([q[0]], q[1..]);
    QueueBagSingle(q[0]);
    assert q == [q[0]] + q[1..];
  }

  /** Slots of one kind in a queue. */
  ghost function Queued(q: seq<Batch>, interior: bool): nat {
    if q == [] then 0 else (if interior then |q[0].interiors| else |q[0].chunks|) + Queued(q[1..], interior)
  }

  lemma QueuedHead(q: seq<Batch>)
    requires q != []
    ensures Queued(q, false) == |q[0].chunks| + Queued(q[1..], false)
    ensures Queued(q, true) == |q[0].interiors| + Queued(q[1..], true)
  {
  }

  ghost function Total(q: seq<Batch>): nat {
    if q == [] then 0 else Len(q[0]) + Total(q[1..])
  }

  /** The queue grows by slots, not by batches. */
  lemma {:induction false} BatchCountBound(q: seq<Batch>)
    requires Spread(q)
    ensures |q| <= 2 * Total(q) / COALESCE_SLOTS + 1
  {
    if |q| >= 2 {
      var rest := q[2..];
      assert q[1..][1..] == rest;
      assert Len(q[0]) + Len(q[1]) > COALESCE_SLOTS;
      forall i | 0 <= i < |rest| - 1 ensures Len(rest[i]) + Len(rest[i + 1]) > COALESCE_SLOTS {
        assert rest[i] == q[i + 2] && rest[i + 1] == q[i + 1 + 2];
      }
      assert Spread(rest);
      BatchCountBound(rest);
      assert Total(q) == Len(q[0]) + (Len(q[1]) + Total(rest));
    }
  }
}
