/** The registry of pinned epochs: a sorted vector of epochs and counts, with its minimum cached. */
module Pins {
  const NOTHING_PINNED: nat := 0xFFFF_FFFF_FFFF_FFFF

  datatype Entry = Entry(epoch: nat, count: nat)

  ghost predicate Ordered(pins: seq<Entry>) {
    && (forall i, j :: 0 <= i < j < |pins| ==> pins[i].epoch < pins[j].epoch)
    && forall i :: 0 <= i < |pins| ==> pins[i].count > 0
  }

  /** Each live ticket, by its epoch. */
  ghost function Tickets(pins: seq<Entry>): multiset<nat> {
    if pins == [] then multiset{} else Tickets(pins[..|pins| - 1])[pins[|pins| - 1].epoch := pins[|pins| - 1].count]
  }

  function MinOf(pins: seq<Entry>): nat {
    if pins == [] then NOTHING_PINNED else pins[0].epoch
  }

  lemma {:induction false} TicketCount(pins: seq<Entry>, e: nat)
    requires Ordered(pins)
    ensures forall i :: 0 <= i < |pins| && pins[i].epoch == e ==> Tickets(pins)[e] == pins[i].count
    ensures (forall i :: 0 <= i < |pins| ==> pins[i].epoch != e) ==> Tickets(pins)[e] == 0
  {
    if pins != [] {
      TicketCount(pins[..|pins| - 1], e);
    }
  }

  /** The tickets of two registries agree when every count does. */
  lemma SameTickets(pins: seq<Entry>, bag: multiset<nat>)
    requires Ordered(pins)
    requires forall i :: 0 <= i < |pins| ==> bag[pins[i].epoch] == pins[i].count
    requires forall e :: e in bag ==> exists i :: 0 <= i < |pins| && pins[i].epoch == e
    ensures Tickets(pins) == bag
  {
    forall e ensures Tickets(pins)[e] == bag[e] {
      TicketCount(pins, e);
    }
  }

  lemma TicketAt(pins: seq<Entry>, e: nat)
    requires Ordered(pins) && e in Tickets(pins)
    ensures exists i :: 0 <= i < |pins| && pins[i].epoch == e
  {
    TicketCount(pins, e);
  }

  /** The cached minimum is the lowest pinned epoch. */
  lemma MinIsLowest(pins: seq<Entry>, e: nat)
    requires Ordered(pins) && e in Tickets(pins)
    ensures MinOf(pins) <= e && MinOf(pins) in Tickets(pins)
  {
    TicketAt(pins, e);
    TicketCount(pins, pins[0].epoch);
  }

  class PinRegistry {
    var pins: seq<Entry>
    var min: nat

    ghost predicate Valid()
      reads this
    {
      Ordered(pins) && min == MinOf(pins)
    }

    constructor ()
      ensures Valid() && Tickets(pins) == multiset{} && min == NOTHING_PINNED
    {
      pins, min := [], NOTHING_PINNED;
    }

    method Search(epoch: nat) returns (found: bool, at: nat)
      requires Valid()
      ensures at <= |pins| && (found ==> at < |pins| && pins[at].epoch == epoch)
      ensures !found ==> (forall i :: 0 <= i < at ==> pins[i].epoch < epoch) && forall i :: at <= i < |pins| ==> pins[i].epoch > epoch
    {
      var lo, hi := 0, |pins|;
      while lo < hi
        invariant 0 <= lo <= hi <= |pins|
        invariant forall i :: 0 <= i < lo ==> pins[i].epoch < epoch
        invariant forall i :: hi <= i < |pins| ==> pins[i].epoch > epoch
      {
        var mid := (lo + hi) / 2;
        if pins[mid].epoch == epoch {
          return true, mid;
        } else if pins[mid].epoch < epoch {
          lo := mid + 1;
        } else {
          hi := mid;
        }
      }
      return false, lo;
    }

    /** One more ticket. At or above the lowest pinned epoch it leaves the minimum alone. */
    method Register(epoch: nat)
      requires Valid()
      modifies this
      ensures Valid() && Tickets(pins) == old(Tickets(pins)) + multiset{epoch}
      ensures old(pins) != [] && old(min) <= epoch ==> min == old(min)
    {
      var found, at := Search(epoch);
      ghost var before := pins;
      if found {
        pins := pins[at := Entry(epoch, pins[at].count + 1)];
      } else {
        pins := pins[..at] + [Entry(epoch, 1)] + pins[at..];
      }
      min := MinOf(pins);
      Added(before, pins, found, at, epoch);
    }

    /** One ticket less; releasing an epoch that is not pinned is a bug and panics. The minimum never falls. */
    method Release(epoch: nat)
      requires Valid() && epoch in Tickets(pins)
      modifies this
      ensures Valid() && Tickets(pins) == old(Tickets(pins)) - multiset{epoch}
      ensures pins == [] || min >= old(min)
    {
      TicketAt(pins, epoch);
      var found, at := Search(epoch);
      ghost var before := pins;
      if pins[at].count == 1 {
        pins := pins[..at] + pins[at + 1..];
      } else {
        pins := pins[at := Entry(epoch, pins[at].count - 1)];
      }
      min := MinOf(pins);
      Removed(before, pins, at, epoch);
    }
  }

  /** Changing one count changes the tickets of that epoch only. */
  lemma Recounted(before: seq<Entry>, at: nat, count: nat)
    requires Ordered(before) && at < |before| && count > 0
    ensures var after := before[at := Entry(before[at].epoch, count)];
      Ordered(after) && Tickets(after) == Tickets(before)[before[at].epoch := count]
  {
    var after := before[at := Entry(before[at].epoch, count)];
    var bag := Tickets(before)[before[at].epoch := count];
    assert forall i :: 0 <= i < |before| ==> after[i].epoch == before[i].epoch;
    forall i | 0 <= i < |after| ensures bag[after[i].epoch] == after[i].count {
      TicketCount(before, after[i].epoch);
    }
    forall e | e in bag ensures exists i :: 0 <= i < |after| && after[i].epoch == e {
      if e != before[at].epoch {
        TicketAt(before, e);
        var i :| 0 <= i < |before| && before[i].epoch == e;
        assert after[i].epoch == e;
      } else {
        assert after[at].epoch == e;
      }
    }
    hide Tickets;
    SameTickets(after, bag);
  }

  lemma OrderedAround(front: seq<Entry>, e: Entry, back: seq<Entry>)
    requires e.count > 0
    requires Ordered(front) && Ordered(back)
    requires forall i :: 0 <= i < |front| ==> front[i].epoch < e.epoch
    requires forall i :: 0 <= i < |back| ==> back[i].epoch > e.epoch
    ensures Ordered(front + [e] + back) && Ordered(front + back)
  {
    var all, both := front + [e] + back, front + back;
    forall i, j | 0 <= i < j < |all| ensures all[i].epoch < all[j].epoch {
      if i < |front| && j > |front| {
        assert all[i] == front[i] && all[j] == back[j - |front| - 1];
      } else if i == |front| {
        assert all[j] == back[j - |front| - 1];
      }
    }
    forall i, j | 0 <= i < j < |both| ensures both[i].epoch < both[j].epoch {
      if i < |front| && j >= |front| {
        assert both[i] == front[i] && both[j] == back[j - |front|];
      }
    }
  }

  /** An entry put between smaller and greater ones adds its tickets. */
  lemma Around(front: seq<Entry>, e: Entry, back: seq<Entry>)
    requires e.count > 0
    requires Ordered(front) && Ordered(back)
    requires forall i :: 0 <= i < |front| ==> front[i].epoch < e.epoch
    requires forall i :: 0 <= i < |back| ==> back[i].epoch > e.epoch
    ensures Ordered(front + [e] + back) && Ordered(front + back)
    ensures Tickets(front + [e] + back) == Tickets(front + back)[e.epoch := e.count] && e.epoch !in Tickets(front + back)
  {
    OrderedAround(front, e, back);
    var all, both := front + [e] + back, front + back;
    hide Ordered, Tickets;
    forall x ensures Tickets(all)[x] == Tickets(both)[e.epoch := e.count][x] {
      TicketCount(all, x);
      TicketCount(both, x);
      Elsewhere(front, e, back, x);
    }
    TicketCount(both, e.epoch);
    assert forall i :: 0 <= i < |both| ==> both[i].epoch != e.epoch;
  }

  lemma Elsewhere(front: seq<Entry>, e: Entry, back: seq<Entry>, x: nat)
    requires forall i :: 0 <= i < |front| ==> front[i].epoch < e.epoch
    requires forall i :: 0 <= i < |back| ==> back[i].epoch > e.epoch
    ensures x == e.epoch ==> (front + [e] + back)[|front|] == e
    ensures x != e.epoch ==> forall i :: 0 <= i < |front + [e] + back| && (front + [e] + back)[i].epoch == x ==>
      exists j :: 0 <= j < |front + back| && (front + back)[j] == (front + [e] + back)[i]
    ensures x != e.epoch ==> forall j :: 0 <= j < |front + back| && (front + back)[j].epoch == x ==>
      exists i :: 0 <= i < |front + [e] + back| && (front + [e] + back)[i] == (front + back)[j]
  {
    var all, both := front + [e] + back, front + back;
    forall i | 0 <= i < |all| && all[i].epoch == x && x != e.epoch ensures exists j :: 0 <= j < |both| && both[j] == all[i] {
      assert both[if i < |front| then i else i - 1] == all[i];
    }
    forall j | 0 <= j < |both| && both[j].epoch == x && x != e.epoch ensures exists i :: 0 <= i < |all| && all[i] == both[j] {
      assert all[if j < |front| then j else j + 1] == both[j];
    }
  }

  lemma SplitAt(pins: seq<Entry>, at: nat)
    requires Ordered(pins) && at <= |pins|
    ensures Ordered(pins[..at]) && Ordered(pins[at..]) && pins[..at] + pins[at..] == pins
    ensures at < |pins| ==> pins[..at] + [pins[at]] + pins[at + 1..] == pins && Ordered(pins[at + 1..])
  {
    OrderedPart(pins, 0, at);
    OrderedPart(pins, at, |pins|);
    if at < |pins| {
      OrderedPart(pins, at + 1, |pins|);
    }
    hide Ordered;
  }

  lemma OrderedPart(pins: seq<Entry>, i: nat, j: nat)
    requires Ordered(pins) && i <= j <= |pins|
    ensures Ordered(pins[i..j]) && (i == 0 ==> pins[i..j] == pins[..j]) && (j == |pins| ==> pins[i..j] == pins[i..])
  {
  }

  lemma Added(before: seq<Entry>, after: seq<Entry>, found: bool, at: nat, epoch: nat)
    requires Ordered(before) && at <= |before|
    requires found ==> at < |before| && before[at].epoch == epoch && after == before[at := Entry(epoch, before[at].count + 1)]
    requires !found ==> (forall i :: 0 <= i < at ==> before[i].epoch < epoch) && (forall i :: at <= i < |before| ==> before[i].epoch > epoch)
    requires !found ==> after == before[..at] + [Entry(epoch, 1)] + before[at..]
    ensures Ordered(after) && Tickets(after) == Tickets(before) + multiset{epoch}
  {
    hide Tickets;
    if found {
      Recounted(before, at, before[at].count + 1);
      TicketCount(before, epoch);
    } else {
      SplitAt(before, at);
      Around(before[..at], Entry(epoch, 1), before[at..]);
    }
  }

  lemma Removed(before: seq<Entry>, after: seq<Entry>, at: nat, epoch: nat)
    requires Ordered(before) && at < |before| && before[at].epoch == epoch
    requires after == if before[at].count == 1 then before[..at] + before[at + 1..]
                      else before[at := Entry(epoch, before[at].count - 1)]
    ensures Ordered(after) && Tickets(after) == Tickets(before) - multiset{epoch}
  {
    hide Tickets;
    if before[at].count == 1 {
      SplitAt(before, at);
      Around(before[..at], before[at], before[at + 1..]);
    } else {
      Recounted(before, at, before[at].count - 1);
      TicketCount(before, epoch);
    }
  }
}
