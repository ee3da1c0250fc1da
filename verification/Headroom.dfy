/** Which insertions end with a traversal that needs more stack than there is: in them, or after them. */
module Headroom {
  import opened Options
  import opened Sorted
  import opened Trees
  import opened Balance
  import opened Arenas
  import opened Builds
  import opened Paths
  import opened CTrees

  /** The insertion of `val` goes left at each of 64 interiors, to a full leaf. */
  ghost predicate Brimful(t: Tree, val: nat) {
    LeafIsFull(Some(t), val) && TurnsTo(t, val) == MAX_DEPTH
  }

  lemma FullOverdeep(t: Tree, val: nat)
    requires Brimful(t, val) && Size(t) + 1 < 0x2_0000_0000
    ensures Overdeep(Some(t), val)
  {
    hide DepthLimit, LeafIsFull, PathLen, LeftSteps, TurnsTo;
    StackHeadroom(Size(t) + 1);
    TurnsBelow(t, val);
  }

  /**
   * Within the guard of a descent, an insertion into a tree that traversals fit panics in its own rebuild
   * exactly when it is brimful and leaves the root unbalanced, so that the whole copy is to be traversed.
   */
  lemma OverrunIff(t: Tree, val: nat)
    requires LeftSteps(t) <= MAX_DEPTH && PathLen(t, val) <= MAX_DEPTH && Size(t) + 1 < 0x2_0000_0000
    ensures Overruns(Some(t), val) <==> Brimful(t, val) && t.Branch? && Due(t, val)
  {
    hide DepthLimit, Due;
    TurnsBelow(t, val);
    RebuildBelow(t, val);
    if Brimful(t, val) {
      FullOverdeep(t, val);
    }
    if t.Branch? && !Due(t, val) {
      var child := if val < t.key then t.left else t.right;
      TurnsBelow(child, val);
      RebuildBelow(child, val);
    }
  }

  /** An insertion that ran to its end: the new tree needs a 65th entry exactly if brimful and not rebuilt. */
  lemma GrownIff(t: Tree, t': Tree, val: nat, failed: bool, chunks: int, interiors: int)
    requires Outgrowth(t, t', val, failed, chunks, interiors)
    requires LeftSteps(t) <= MAX_DEPTH && Size(t) + 1 < 0x2_0000_0000
    ensures LeftSteps(t') > MAX_DEPTH <==> failed && Brimful(t, val)
    ensures LeftSteps(t') <= MAX_DEPTH + 1
  {
    hide DepthLimit, LeftSteps, TurnsTo, LeafIsFull, GrownLeft, PathLen;
    StackHeadroom(Size(t) + 1);
    TurnsBelow(t, val);
  }

  /**
   * A traversal in the insertion, or of its outcome, needs more entries than its stack has exactly when the
   * insertion is brimful and either leaves the root unbalanced or finds no room for its rebuild. All of it
   * can be read off the tree and the stock before the call.
   */
  lemma OverflowIff(s: Stock, s': Stock, t: Tree, t': Tree, val: nat, res: InsertResult, failed: bool, chunks: int, interiors: int)
    requires Outgrowth(t, t', val, failed, chunks, interiors) && InsertTook(s, s', res, Some(t), val, failed)
    requires if Overruns(Some(t), val) then res.Overran? else res.Inserted?
    requires LeftSteps(t) <= MAX_DEPTH && PathLen(t, val) <= MAX_DEPTH && Size(t) + 1 < 0x2_0000_0000 && s.idle && s.ample
    ensures res.Overran? || LeftSteps(t') > MAX_DEPTH <==>
      Brimful(t, val) && t.Branch? && (Due(t, val) || !RoomToRebuild(s, t, val))
    ensures res.Overran? <==> Brimful(t, val) && t.Branch? && Due(t, val)
  {
    GrownIff(t, t', val, failed, chunks, interiors);
    OverrunIff(t, val);
    if Brimful(t, val) {
      FullOverdeep(t, val);
      LeafNoTurns(t, val);
    }
    hide LeftSteps, TurnsTo, LeafIsFull, Outgrowth, Overdeep, Overruns, RoomToRebuild, RoomToInsert, Paid, Due;
  }

  lemma LeafNoTurns(t: Tree, val: nat)
    requires Brimful(t, val)
    ensures t.Branch?
  {
    if t.Leaf? {
      LeafTurns(t, val);
    }
  }

  /**
   * Insert where there is room for the copy, then traverse. Either the insertion panics, or the element is
   * in and the traversal is whole or panics; which of them, the tree and the stock decide beforehand.
   */
  method InsertAndRead(a: Arena, root: Slot, val: nat, log: RetireLog, ghost t: Tree)
    returns (panicked: bool, ok: bool, vals: seq<nat>)
    requires a.Valid() && Stored(a.mem, t) && t.slot == root && Slots(t) <= a.inUse && Sound(t) && val !in Elems(t)
    requires LeftSteps(t) <= MAX_DEPTH && PathLen(t, val) <= MAX_DEPTH && Size(t) + 1 < 0x2_0000_0000
    requires RoomToInsert(a.Supply(), Some(t), val)
    modifies a, log
    ensures a.Valid() && Ascending(Elems(t))
    ensures panicked <==> Brimful(t, val) && t.Branch? && Due(t, val)
    ensures !panicked ==> (ok <==> !Brimful(t, val) || RoomToRebuild(old(a.Supply()), t, val))
    ensures !panicked && ok ==> vals == Ins(Elems(t), val)
  {
    hide Arena.Valid, Arena.Exhausted, Elems, Slots, Sound, Stored, Ins, HeightKept, Accounted, Grown, Arena.Supply;
    hide RoomToInsert, RoomToRebuild, Outgrowth, InsertTook, LeftSteps, TurnsTo, PathLen, LeafIsFull, Arena.Undisturbed, Overruns, Due, Brimful;
    ghost var s := a.Supply();
    OrderedOnce(t);
    var res, t1, gone, added, leaked, failed := InsertWithScratch(a, Some(root), val, log, Some(t));
    NotRefused(s, a.Supply(), res, t, val, failed);
    OverflowIff(s, a.Supply(), t, t1, val, res, failed, |log.chunks| - |old(log.chunks)|, |log.interiors| - |old(log.interiors)|);
    if Brimful(t, val) {
      LeafNoTurns(t, val);
    }
    if res.Overran? {
      return true, false, [];
    }
    var whole, collected, _ := CollectInto(a.mem, res.root, [], t1);
    return false, whole, collected;
  }

  lemma NotRefused(s: Stock, s': Stock, res: InsertResult, t: Tree, val: nat, failed: bool)
    requires InsertTook(s, s', res, Some(t), val, failed) && RoomToInsert(s, Some(t), val) && PathLen(t, val) <= MAX_DEPTH
    ensures !res.ArenaFull? && s.idle && s.ample
  {
    hide Overdeep, RebuildDecided, Paid, PathLen;
  }

  lemma OrderedOnce(t: Tree)
    requires Sound(t)
    ensures Ascending(Elems(t))
  {
    OrderedElems(t);
  }
}
