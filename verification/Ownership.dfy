/**
 * Who owns each slot of a graph's arena: the published tree of one vertex, the retire log, or
 * nobody (leaked by a failed operation until compaction).
 */
module Ownership {
  import opened Options
  import opened Trees
  import opened Arenas
  import opened Builds
  import opened CTrees

  ghost function LiveBag(trees: seq<Option<Tree>>): multiset<Slot> {
    if trees == [] then multiset{} else LiveBag(trees[..|trees| - 1]) + multiset(RSlots(trees[|trees| - 1]))
  }

  /** Each slot in use is in exactly one published tree, or logged, or leaked: exactly once. */
  ghost predicate Owned(u: set<Slot>, trees: seq<Option<Tree>>, logged: multiset<Slot>, leaked: set<Slot>) {
    multiset(u) == LiveBag(trees) + logged + multiset(leaked)
  }

  ghost predicate Rooted(m: Mem, roots: seq<Option<Slot>>, trees: seq<Option<Tree>>) {
    && |roots| == |trees|
    && forall v :: 0 <= v < |roots| ==> RootAt(m, roots[v], trees[v])
  }

  ghost predicate State(m: Mem, u: set<Slot>, roots: seq<Option<Slot>>, trees: seq<Option<Tree>>,
                        logged: multiset<Slot>, leaked: set<Slot>)
  {
    Rooted(m, roots, trees) && Owned(u, trees, logged, leaked)
  }

  lemma {:induction false} LiveBagUpdate(trees: seq<Option<Tree>>, v: nat, t: Option<Tree>)
    requires v < |trees|
    ensures LiveBag(trees[v := t]) + multiset(RSlots(trees[v])) == LiveBag(trees) + multiset(RSlots(t))
  {
    hide RSlots;
    var front, last := trees[..|trees| - 1], trees[|trees| - 1];
    if v == |trees| - 1 {
      assert trees[v := t][..v] == front;
    } else {
      LiveBagUpdate(front, v, t);
      assert trees[v := t][..|trees| - 1] == front[v := t];
      SwapLast(LiveBag(front[v := t]), LiveBag(front), multiset(RSlots(trees[v])), multiset(RSlots(t)), multiset(RSlots(last)));
    }
  }

  lemma SwapLast(a: multiset<Slot>, b: multiset<Slot>, x: multiset<Slot>, y: multiset<Slot>, z: multiset<Slot>)
    requires a + x == b + y
    ensures (a + z) + x == (b + z) + y
  {
    assert (a + z) + x == (a + x) + z;
    assert (b + z) + y == (b + y) + z;
  }

  lemma {:induction false} LiveBagHas(trees: seq<Option<Tree>>, v: nat)
    requires v < |trees|
    ensures multiset(RSlots(trees[v])) <= LiveBag(trees)
  {
    if v < |trees| - 1 {
      LiveBagHas(trees[..|trees| - 1], v);
    }
  }

  /** Two vertices share no slot. */
  lemma {:induction false} LiveApart(trees: seq<Option<Tree>>, v: nat, w: nat)
    requires v < w < |trees|
    ensures multiset(RSlots(trees[v])) + multiset(RSlots(trees[w])) <= LiveBag(trees)
  {
    if w == |trees| - 1 {
      LiveBagHas(trees[..w], v);
    } else {
      LiveApart(trees[..|trees| - 1], v, w);
    }
  }

  lemma NoTwice(u: set<Slot>, a: multiset<Slot>, b: multiset<Slot>, s: Slot)
    requires a + b <= multiset(u)
    ensures !(s in a && s in b)
  {
    assert multiset(u)[s] <= 1;
    assert (a + b)[s] == a[s] + b[s];
  }

  /** What `Owned` says, slot by slot. */
  lemma OwnedOnce(u: set<Slot>, trees: seq<Option<Tree>>, logged: multiset<Slot>, leaked: set<Slot>, v: nat)
    requires Owned(u, trees, logged, leaked) && v < |trees|
    ensures RSlots(trees[v]) <= u && leaked <= u && logged <= multiset(u)
    ensures forall s :: s in RSlots(trees[v]) ==> s !in logged && s !in leaked
    ensures forall w: nat :: w < |trees| && w != v ==> RSlots(trees[v]) !! RSlots(trees[w])
  {
    hide LiveBag, RSlots;
    LiveBagHas(trees, v);
    forall s | s in RSlots(trees[v])
      ensures s in u && s !in logged && s !in leaked
    {
      assert s in LiveBag(trees);
      assert s in multiset(u);
      NoTwice(u, LiveBag(trees), logged + multiset(leaked), s);
    }
    forall s | s in leaked ensures s in u { assert s in multiset(u); }
    forall w: nat | w < |trees| && w != v
      ensures RSlots(trees[v]) !! RSlots(trees[w])
    {
      LiveApart(trees, if v < w then v else w, if v < w then w else v);
      forall s | s in RSlots(trees[v]) && s in RSlots(trees[w]) ensures false {
        NoTwice(u, multiset(RSlots(trees[v])), multiset(RSlots(trees[w])), s);
      }
    }
  }

  lemma GrownRoot(m0: Mem, u0: set<Slot>, m: Mem, u: set<Slot>, added: set<Slot>, root: Option<Slot>, t: Option<Tree>)
    requires Grown(m0, u0, m, u, added) && RootAt(m0, root, t) && RSlots(t) <= u0
    ensures RootAt(m, root, t)
  {
    if t.Some? {
      GrownStored(m0, u0, m, u, added, t.value);
    }
  }

  lemma GrownRooted(m0: Mem, u0: set<Slot>, m: Mem, u: set<Slot>, added: set<Slot>,
                    roots: seq<Option<Slot>>, trees: seq<Option<Tree>>, logged: multiset<Slot>, leaked: set<Slot>)
    requires Grown(m0, u0, m, u, added) && State(m0, u0, roots, trees, logged, leaked)
    ensures Rooted(m, roots, trees)
  {
    hide Grown, RootAt, RSlots, Owned;
    forall v | 0 <= v < |roots| ensures RootAt(m, roots[v], trees[v]) {
      OwnedOnce(u0, trees, logged, leaked, v);
      GrownRoot(m0, u0, m, u, added, roots[v], trees[v]);
    }
  }

  /** Slots an operation allocated and then abandoned belong to nobody. */
  lemma Leak(m0: Mem, u0: set<Slot>, m: Mem, u: set<Slot>, added: set<Slot>,
             roots: seq<Option<Slot>>, trees: seq<Option<Tree>>, logged: multiset<Slot>, leaked: set<Slot>)
    requires Grown(m0, u0, m, u, added) && State(m0, u0, roots, trees, logged, leaked)
    ensures State(m, u, roots, trees, logged, leaked + added)
  {
    hide LiveBag, RootAt, Rooted;
    GrownRooted(m0, u0, m, u, added, roots, trees, logged, leaked);
    forall s | s in leaked ensures s in u0 { assert s in multiset(u0); }
    BagOfUnion(leaked, added);
    BagOfUnion(u0, added);
  }

  lemma BagOfUnion(a: set<Slot>, b: set<Slot>)
    requires a !! b
    ensures multiset(a + b) == multiset(a) + multiset(b)
  {
  }

  /** Stamping the log hands its slots to the arena's queues and leaves every tree as it was. */
  lemma Retired(m0: Mem, u0: set<Slot>, m: Mem, roots: seq<Option<Slot>>, trees: seq<Option<Tree>>,
                logged: multiset<Slot>, leaked: set<Slot>)
    requires State(m0, u0, roots, trees, logged, leaked)
    requires forall s :: s in m0 && s in u0 - Members(logged, u0) ==> s in m && m[s] == m0[s]
    ensures State(m, u0 - Members(logged, u0), roots, trees, multiset{}, leaked)
  {
    hide LiveBag, RootAt, RSlots, Owned;
    var u := u0 - Members(logged, u0);
    RetiredOwned(u0, trees, logged, leaked);
    forall v | 0 <= v < |roots| ensures RootAt(m, roots[v], trees[v]) {
      OwnedOnce(u0, trees, logged, leaked, v);
      RootKept(m0, m, roots[v], trees[v]);
    }
  }

  lemma RetiredOwned(u0: set<Slot>, trees: seq<Option<Tree>>, logged: multiset<Slot>, leaked: set<Slot>)
    requires Owned(u0, trees, logged, leaked)
    ensures Owned(u0 - Members(logged, u0), trees, multiset{}, leaked)
  {
    hide LiveBag;
    var u := u0 - Members(logged, u0);
    RestAndLogged(u0, LiveBag(trees) + multiset(leaked), logged);
    assert LiveBag(trees) + multiset{} + multiset(leaked) == LiveBag(trees) + multiset(leaked);
  }

  lemma RestAndLogged(u: set<Slot>, rest: multiset<Slot>, logged: multiset<Slot>)
    requires multiset(u) == rest + logged
    ensures multiset(u - Members(logged, u)) == rest
  {
    forall s ensures multiset(u - Members(logged, u))[s] == rest[s] {
      assert multiset(u)[s] == rest[s] + logged[s];
    }
  }

  lemma RootKept(m0: Mem, m: Mem, root: Option<Slot>, t: Option<Tree>)
    requires RootAt(m0, root, t)
    requires forall s :: s in m0 && s in RSlots(t) ==> s in m && m[s] == m0[s]
    ensures RootAt(m, root, t)
  {
    if t.Some? {
      StoredSlots(m0, t.value);
      StoredFrame(m0, m, t.value);
    }
  }

  /** One root store replaces one vertex's tree; everything it superseded is logged or leaked. */
  lemma Publish(m0: Mem, u0: set<Slot>, m: Mem, u: set<Slot>, added: set<Slot>,
                roots: seq<Option<Slot>>, trees: seq<Option<Tree>>, logged: multiset<Slot>, leaked: set<Slot>,
                v: nat, root: Option<Slot>, t: Option<Tree>, gone: set<Slot>, lost: set<Slot>)
    requires Grown(m0, u0, m, u, added) && State(m0, u0, roots, trees, logged, leaked)
    requires v < |roots| && RootAt(m, root, t)
    requires Accounted(RSlots(trees[v]), added, RSlots(t), gone, lost)
    ensures State(m, u, roots[v := root], trees[v := t], logged + multiset(gone), leaked + lost)
  {
    hide LiveBag, RootAt, RSlots;
    GrownRooted(m0, u0, m, u, added, roots, trees, logged, leaked);
    hide Rooted, Owned;
    PublishOwned(u0, u, added, trees, logged, leaked, v, t, gone, lost);
    PublishRooted(m, roots, trees, v, root, t);
  }

  lemma PublishRooted(m: Mem, roots: seq<Option<Slot>>, trees: seq<Option<Tree>>, v: nat, root: Option<Slot>, t: Option<Tree>)
    requires Rooted(m, roots, trees) && v < |roots| && RootAt(m, root, t)
    ensures Rooted(m, roots[v := root], trees[v := t])
  {
    hide RootAt;
  }

  lemma PublishOwned(u0: set<Slot>, u: set<Slot>, added: set<Slot>, trees: seq<Option<Tree>>, logged: multiset<Slot>,
                     leaked: set<Slot>, v: nat, t: Option<Tree>, gone: set<Slot>, lost: set<Slot>)
    requires Owned(u0, trees, logged, leaked) && added !! u0 && u == u0 + added && v < |trees|
    requires Accounted(RSlots(trees[v]), added, RSlots(t), gone, lost)
    ensures Owned(u, trees[v := t], logged + multiset(gone), leaked + lost)
  {
    hide LiveBag, RSlots;
    LiveBagUpdate(trees, v, t);
    forall s | s in leaked ensures s in u0 { assert s in multiset(u0); }
    BagOfUnion(leaked, lost);
    BagOfUnion(u0, added);
    var before, after := RSlots(trees[v]), RSlots(t);
    BagOfUnion(before, added);
    BagOfUnion(after, gone);
    BagOfUnion(after + gone, lost);
    Balanced(LiveBag(trees), LiveBag(trees[v := t]), multiset(before), multiset(after), multiset(added), multiset(gone),
             multiset(lost), logged, multiset(leaked));
  }

  lemma Balanced(live: multiset<Slot>, live': multiset<Slot>, before: multiset<Slot>, after: multiset<Slot>,
                 added: multiset<Slot>, gone: multiset<Slot>, lost: multiset<Slot>, logged: multiset<Slot>, leaked: multiset<Slot>)
    requires live' + before == live + after && before + added == after + gone + lost
    ensures live + logged + leaked + added == live' + (logged + gone) + (leaked + lost)
  {
    forall s ensures (live + logged + leaked + added)[s] == (live' + (logged + gone) + (leaked + lost))[s] {
      assert (live' + before)[s] == (live + after)[s];
      assert (before + added)[s] == (after + gone + lost)[s];
    }
  }

  /** Steps of a chain of insertions compose. */
  lemma AccountedTrans(before: set<Slot>, a1: set<Slot>, mid: set<Slot>, g1: set<Slot>, l1: set<Slot>,
                       a2: set<Slot>, after: set<Slot>, g2: set<Slot>, l2: set<Slot>)
    requires Accounted(before, a1, mid, g1, l1) && Accounted(mid, a2, after, g2, l2)
    requires a2 !! before + a1
    ensures Accounted(before, a1 + a2, after, g1 + g2, l1 + l2)
    ensures multiset(g1 + g2) == multiset(g1) + multiset(g2)
  {
    BagOfUnion(g1, g2);
  }
}
