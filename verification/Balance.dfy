/**
 * The scapegoat argument for weight balance 2/3: a path deeper than log_{3/2}(n) carries a
 * weight-unbalanced node, and rebuilding the highest such node brings the path back under the bound.
 */
module Balance {
  import opened Chunks
  import opened Trees

  function Pow2(k: nat): (p: nat)
    ensures p >= 1
  {
    if k == 0 then 1 else 2 * Pow2(k - 1)
  }

  function Pow3(k: nat): (p: nat)
    ensures p >= 1
  {
    if k == 0 then 1 else 3 * Pow3(k - 1)
  }

  /** k <= log_{3/2}(n), without logarithms. */
  predicate Fits(k: nat, n: nat) {
    Pow3(k) <= n * Pow2(k)
  }

  /** floor(log_{3/2}(max(n, 2))). */
  function DepthLimit(n: nat): (k: nat)
    ensures Fits(k, Max(n, 2)) && !Fits(k + 1, Max(n, 2))
  {
    FitsBounded(2 * Max(n, 2), Max(n, 2));
    LargestFit(Max(n, 2), 2 * Max(n, 2))
  }

  function LargestFit(n: nat, k: nat): (r: nat)
    requires n >= 1 && !Fits(k, n)
    ensures Fits(r, n) && !Fits(r + 1, n)
  {
    if Fits(k - 1, n) then k - 1 else LargestFit(n, k - 1)
  }

  lemma MulLe(a: nat, b: nat, c: nat)
    requires a <= b
    ensures a * c <= b * c && c * a <= c * b
  {
  }

  lemma MulAssoc(a: nat, b: nat, c: nat)
    ensures (a * b) * c == a * (b * c)
  {
  }

  lemma GapStep(k: nat, p: nat, q: nat)
    requires k > 0 && (1 + k) * p <= 2 * q
    ensures (2 + k) * (2 * p) <= 2 * (3 * q)
  {
    MulLe(2 * (2 + k), 3 * (1 + k), p);
    MulAssoc(3, 1 + k, p);
  }

  lemma {:induction false} GrowthGap(k: nat)
    ensures (2 + k) * Pow2(k) <= 2 * Pow3(k)
  {
    if k > 0 {
      GrowthGap(k - 1);
      GapStep(k, Pow2(k - 1), Pow3(k - 1));
    }
  }

  lemma FitsBounded(k: nat, n: nat)
    requires k >= 2 * n
    ensures !Fits(k, n)
  {
    GrowthGap(k);
    var p := Pow2(k);
    assert (2 + k) * p == 2 * p + k * p;
    assert (2 * n) * p <= k * p;
    assert (2 * n) * p == 2 * (n * p);
  }

  /** The fitting depths are exactly those up to the limit. */
  lemma {:induction false} FitsDown(j: nat, k: nat, n: nat)
    requires j <= k && Fits(k, n)
    ensures Fits(j, n)
  {
    if j < k {
      var p := Pow2(k - 1);
      assert n * (2 * p) == 2 * (n * p);
      FitsDown(j, k - 1, n);
    }
  }

  lemma FitsUp(k: nat, n: nat, n': nat)
    requires Fits(k, n) && n <= n'
    ensures Fits(k, n')
  {
    assert n * Pow2(k) <= n' * Pow2(k);
  }

  lemma LimitIff(k: nat, n: nat)
    ensures k <= DepthLimit(n) <==> Fits(k, Max(n, 2))
  {
    if k <= DepthLimit(n) {
      FitsDown(k, DepthLimit(n), Max(n, 2));
    } else if Fits(k, Max(n, 2)) {
      FitsDown(DepthLimit(n) + 1, k, Max(n, 2));
    }
  }

  lemma LimitMonotone(n: nat, n': nat)
    requires n <= n'
    ensures DepthLimit(n) <= DepthLimit(n')
  {
    FitsUp(DepthLimit(n), Max(n, 2), Max(n', 2));
    LimitIff(DepthLimit(n), n');
  }

  /** The largest k with 2^k <= n. */
  predicate IsLog2(k: nat, n: nat) {
    Pow2(k) <= n < 2 * Pow2(k)
  }

  lemma SquareDoubles(p: nat)
    ensures (2 * p) * (2 * p) == 4 * (p * p)
  {
  }

  lemma {:induction false} Pow3Square(k: nat)
    ensures Pow3(k) <= Pow2(k) * Pow2(k)
  {
    if k > 0 {
      Pow3Square(k - 1);
      SquareDoubles(Pow2(k - 1));
    }
  }

  lemma SmallPowerFits(k: nat, n: nat)
    requires Pow2(k) <= n
    ensures Fits(k, n)
  {
    Pow3Square(k);
    assert Pow2(k) * Pow2(k) <= n * Pow2(k);
  }

  /** Integer logarithm by halving. */
  function ILog2(n: nat): (k: nat)
    requires n >= 1
    ensures IsLog2(k, n)
  {
    if n == 1 then 0 else 1 + ILog2(n / 2)
  }

  lemma {:induction false} Log2Unique(a: nat, b: nat, n: nat)
    requires Pow2(a) <= n < 2 * Pow2(a) && Pow2(b) <= n < 2 * Pow2(b)
    ensures a == b
  {
    if a > 0 && b > 0 {
      Log2Unique(a - 1, b - 1, n / 2);
    }
  }

  /** The integer prefilter never hides a path that is too deep. */
  lemma PrefilterSafe(d: nat, n: nat)
    ensures (d > ILog2(Max(n, 2)) && d > DepthLimit(n)) <==> d > DepthLimit(n)
  {
    SmallPowerFits(ILog2(Max(n, 2)), Max(n, 2));
    LimitIff(ILog2(Max(n, 2)), n);
  }

  // -- Paths and weights ------------------------------------------------------

  /** One child holds more than two thirds of the elements. */
  ghost predicate Unbalanced(t: Tree)
    requires t.Branch?
  {
    3 * Size(t.left) > 2 * t.count || 3 * Size(t.right) > 2 * t.count
  }

  /** `sp` walks from `sp[0]` by the turns `dirs`, true meaning left. */
  ghost predicate Walk(sp: seq<Tree>, dirs: seq<bool>) {
    && |sp| == |dirs| + 1
    && forall i :: 0 <= i < |dirs| ==>
         sp[i].Branch? && sp[i + 1] == if dirs[i] then sp[i].left else sp[i].right
  }

  lemma {:induction false} WeightShrinks(sp: seq<Tree>, dirs: seq<bool>, k: nat)
    requires Walk(sp, dirs) && k <= |dirs|
    requires forall i :: 0 <= i < k ==> !Unbalanced(sp[i])
    ensures Pow3(k) * Size(sp[k]) <= Pow2(k) * Size(sp[0])
  {
    if k > 0 {
      WeightShrinks(sp, dirs, k - 1);
      assert !Unbalanced(sp[k - 1]);
      ShrinkStep(Pow3(k - 1), Pow2(k - 1), Size(sp[k - 1]), Size(sp[k]), Size(sp[0]));
    }
  }

  lemma ShrinkStep(p: nat, q: nat, a: nat, b: nat, n: nat)
    requires p * a <= q * n && 3 * b <= 2 * a
    ensures (3 * p) * b <= (2 * q) * n
  {
    MulLe(3 * b, 2 * a, p);
    MulAssoc(2, q, n);
  }

  lemma FitStep(p3: nat, p2: nat, q3: nat, q2: nat, m: nat, n: nat)
    requires p3 * m <= p2 * n && q3 <= m * q2
    ensures p3 * q3 <= n * (p2 * q2)
  {
    MulLe(q3, m * q2, p3);
    MulAssoc(p3, m, q2);
    MulLe(p3 * m, p2 * n, q2);
    MulAssoc(n, p2, q2);
  }

  /** A path whose nodes are all balanced is no deeper than the limit. */
  lemma BalancedPathFits(sp: seq<Tree>, dirs: seq<bool>)
    requires Walk(sp, dirs) && Size(sp[|dirs|]) >= 1
    requires forall i :: 0 <= i < |dirs| ==> !Unbalanced(sp[i])
    ensures |dirs| <= DepthLimit(Size(sp[0]))
  {
    var k := |dirs|;
    WeightShrinks(sp, dirs, k);
    assert Pow3(k) <= Pow3(k) * Size(sp[k]);
    assert Pow2(k) * Size(sp[0]) == Size(sp[0]) * Pow2(k);
    FitsUp(k, Size(sp[0]), Max(Size(sp[0]), 2));
    LimitIff(k, Size(sp[0]));
  }

  /**
   * A path that ends in a leaf, or in a balanced node above leaves, and is deeper than the limit has
   * an unbalanced node among its recorded interiors: the rebuild never falls back to the root.
   */
  lemma OverdeepHasScapegoat(sp: seq<Tree>, dirs: seq<bool>)
    requires Walk(sp, dirs) && Ordered(sp[|dirs|])
    requires Height(sp[|dirs|]) <= 1 && (sp[|dirs|].Branch? ==> !Unbalanced(sp[|dirs|]))
    requires |dirs| + Height(sp[|dirs|]) > DepthLimit(Size(sp[0]))
    ensures exists i :: 0 <= i < |dirs| && Unbalanced(sp[i])
  {
    if forall i :: 0 <= i < |dirs| ==> !Unbalanced(sp[i]) {
      var last := sp[|dirs|];
      if last.Leaf? {
        BalancedPathFits(sp, dirs);
      } else {
        OrderedElems(last.left);
        BalancedPathFits(sp + [last.left], dirs + [true]);
      }
    }
  }

  // -- Balanced builds --------------------------------------------------------

  /** Chunks needed for n ids. */
  function Leaves(n: nat): nat {
    (n + CHUNK_CAP - 1) / CHUNK_CAP
  }

  /** It is the least number of chunks that hold them. */
  lemma LeavesIff(n: nat, k: nat)
    ensures Leaves(n) <= k <==> n <= CHUNK_CAP * k
  {
  }

  /** Where a balanced build over more than one chunk splits. */
  function BuildSplit(n: nat): nat {
    Leaves(n) / 2 * CHUNK_CAP
  }

  /**
   * Which built interiors are weight-balanced: all but the two-leaf ones of 16 to 22 ids, whose full
   * left leaf is heavier than two thirds.
   */
  lemma BuiltBalancedIff(n: nat)
    requires n > CHUNK_CAP
    ensures 3 * BuildSplit(n) <= 2 * n && 3 * (n - BuildSplit(n)) <= 2 * n <==> n >= 23
  {
    var k := Leaves(n) / 2;
    assert Leaves(n) == 2 * k || Leaves(n) == 2 * k + 1;
  }

  /** What a balanced build over n ids guarantees of its height. */
  ghost predicate BuiltHeight(h: nat, n: nat) {
    if n <= CHUNK_CAP then h == 0 else Pow2(h) <= 2 * (Leaves(n) - 1)
  }

  lemma BuiltFits(h: nat, n: nat)
    requires n >= 1 && BuiltHeight(h, n)
    ensures Fits(h, n)
  {
    if n > CHUNK_CAP {
      SmallPowerFits(h, n);
    }
  }

  /**
   * Rebuilding the highest unbalanced node restores the bound: above it every node is balanced, so
   * the rebuilt subtree is light enough for its depth.
   */
  lemma RebuildFits(sp: seq<Tree>, dirs: seq<bool>, s: nat, h: nat)
    requires Walk(sp, dirs) && s <= |dirs| && Size(sp[s]) >= 1
    requires forall i :: 0 <= i < s ==> !Unbalanced(sp[i])
    requires BuiltHeight(h, Size(sp[s]))
    ensures s + h <= DepthLimit(Size(sp[0]))
  {
    var n, m := Size(sp[0]), Size(sp[s]);
    WeightShrinks(sp, dirs, s);
    BuiltFits(h, m);
    PowAdd(s, h);
    FitStep(Pow3(s), Pow2(s), Pow3(h), Pow2(h), m, n);
    FitsUp(s + h, n, Max(n, 2));
    LimitIff(s + h, n);
  }

  lemma {:induction false} PowAdd(a: nat, b: nat)
    ensures Pow3(a + b) == Pow3(a) * Pow3(b) && Pow2(a + b) == Pow2(a) * Pow2(b)
  {
    if a > 0 {
      PowAdd(a - 1, b);
      MulAssoc(3, Pow3(a - 1), Pow3(b));
      MulAssoc(2, Pow2(a - 1), Pow2(b));
    }
  }

  lemma PowJoin(a: nat, b: nat, p2: nat, p3: nat, q2: nat, q3: nat)
    requires Pow2(a) == p2 && Pow3(a) == p3 && Pow2(b) == q2 && Pow3(b) == q3
    ensures Pow2(a + b) == p2 * q2 && Pow3(a + b) == p3 * q3
  {
    PowAdd(a, b);
  }

  lemma Powers58()
    ensures Pow2(58) == 288230376151711744 && Pow3(58) == 4710128697246244834921603689
  {
    assert Pow2(2) == 4 && Pow3(2) == 9;
    hide Pow2, Pow3;
    PowJoin(2, 2, 4, 9, 4, 9);
    PowJoin(4, 4, 16, 81, 16, 81);
    PowJoin(8, 8, 256, 6561, 256, 6561);
    PowJoin(16, 16, 65536, 43046721, 65536, 43046721);
    PowJoin(32, 16, 4294967296, 1853020188851841, 65536, 43046721);
    PowJoin(48, 8, 281474976710656, 79766443076872509863361, 256, 6561);
    PowJoin(56, 2, 72057594037927936, 523347633027360537213511521, 4, 9);
  }

  /** Every tree an arena can hold stays well under the 64 entries of the traversal stacks. */
  lemma StackHeadroom(n: nat)
    requires n < 0x2_0000_0000
    ensures DepthLimit(n) < 58
  {
    hide Pow2, Pow3, DepthLimit;
    Powers58();
    LimitIff(58, n);
  }
}
