/** The single-pass drawdown loop against its pairwise definition. */
module Metrics {
  import opened Basics

  /** The highest equity up to and including bar k. */
  function RunningMax(e: seq<real>, k: nat): real
    requires k < |e|
  {
    if k == 0 then e[0] else Max(RunningMax(e, k - 1), e[k])
  }

  /** The loss from a to b as a fraction of a; zero when a is not positive. */
  function Fall(a: real, b: real): real {
    if a > 0.0 then (a - b) / a else 0.0
  }

  predicate Underwater(e: seq<real>, k: nat)
    requires k < |e|
  {
    e[k] < RunningMax(e, k)
  }

  /** Bars a to b-1 are all strictly below the running maximum. */
  predicate DrawdownRun(e: seq<real>, a: int, b: int) {
    0 <= a <= b <= |e| && forall k :: a <= k < b ==> Underwater(e, k)
  }

  /** dd is the deepest fall from the running maximum over the first k bars. */
  ghost predicate DeepestUpTo(e: seq<real>, k: nat, dd: real)
    requires k <= |e|
  {
    && dd >= 0.0
    && (forall i :: 0 <= i < k ==> Fall(RunningMax(e, i), e[i]) <= dd)
    && (dd == 0.0 || exists i :: 0 <= i < k && Fall(RunningMax(e, i), e[i]) == dd)
  }

  /** len is the length of the longest run of underwater bars among the first k. */
  ghost predicate LongestUpTo(e: seq<real>, k: nat, len: nat)
    requires k <= |e|
  {
    && (forall a, b :: b <= k && DrawdownRun(e, a, b) ==> b - a <= len)
    && exists a, b :: b <= k && DrawdownRun(e, a, b) && b - a == len
  }

  ghost predicate IsDeepest(e: seq<real>, dd: real) { DeepestUpTo(e, |e|, dd) }

  ghost predicate IsLongest(e: seq<real>, len: nat) { LongestUpTo(e, |e|, len) }

  /** The last `current` of the first k bars are underwater and the one before them is not. */
  predicate CurrentRun(e: seq<real>, k: nat, current: nat)
    requires k <= |e|
  {
    current <= k && DrawdownRun(e, k - current, k) && (current < k ==> !Underwater(e, k - current - 1))
  }

  lemma ExtendRun(e: seq<real>, k: nat, current: nat, len: nat)
    requires k < |e| && CurrentRun(e, k, current) && LongestUpTo(e, k, len) && Underwater(e, k)
    ensures CurrentRun(e, k + 1, current + 1)
    ensures LongestUpTo(e, k + 1, if current + 1 > len then current + 1 else len)
  {
    assert DrawdownRun(e, k - current, k + 1);
    forall a, b | b <= k + 1 && DrawdownRun(e, a, b)
      ensures b - a <= if current + 1 > len then current + 1 else len
    {
      assert b == k + 1 && current < k ==> a >= k - current;
    }
  }

  lemma EndRun(e: seq<real>, k: nat, current: nat, len: nat)
    requires k < |e| && CurrentRun(e, k, current) && LongestUpTo(e, k, len) && !Underwater(e, k)
    ensures CurrentRun(e, k + 1, 0) && LongestUpTo(e, k + 1, len)
  {
    forall a, b | b <= k + 1 && DrawdownRun(e, a, b) ensures b - a <= len {
      assert b == k + 1 ==> a == k + 1;
    }
  }

  lemma NoFall(a: real)
    ensures Fall(a, a) == 0.0
  {
    assert a > 0.0 ==> (a - a) / a == 0.0;
  }

  lemma DeeperFall(e: seq<real>, k: nat, dd: real)
    requires k < |e| && DeepestUpTo(e, k, dd)
    ensures DeepestUpTo(e, k + 1, Max(dd, Fall(RunningMax(e, k), e[k])))
  {
    var x := Fall(RunningMax(e, k), e[k]);
    if x <= dd {
      assert Max(dd, x) == dd;
    } else {
      assert Max(dd, x) == x;
    }
  }

  method MaxDrawdown(equity: seq<real>) returns (dd: real, len: nat)
    ensures IsDeepest(equity, dd) && IsLongest(equity, len)
  {
    assert DrawdownRun(equity, 0, 0);
    if equity == [] {
      return 0.0, 0;
    }
    var peak := equity[0];
    var current := 0;
    dd, len := 0.0, 0;
    for k := 0 to |equity|
      invariant peak == if k == 0 then equity[0] else RunningMax(equity, k - 1)
      invariant DeepestUpTo(equity, k, dd)
      invariant CurrentRun(equity, k, current) && LongestUpTo(equity, k, len)
    {
      var v := equity[k];
      DeeperFall(equity, k, dd);
      if v >= peak {
        NoFall(v);
        EndRun(equity, k, current, len);
        peak := v;
        current := 0;
      } else {
        ExtendRun(equity, k, current, len);
        current := current + 1;
        len := if current > len then current else len;
        dd := Max(dd, Fall(peak, v));
      }
    }
  }

  lemma {:induction false} RunningMaxBounds(e: seq<real>, i: nat, k: nat)
    requires i <= k < |e|
    ensures e[i] <= RunningMax(e, k)
  {
    if i < k {
      RunningMaxBounds(e, i, k - 1);
    }
  }

  lemma {:induction false} RunningMaxAttained(e: seq<real>, k: nat) returns (i: nat)
    requires k < |e|
    ensures i <= k && e[i] == RunningMax(e, k)
  {
    if k == 0 || e[k] >= RunningMax(e, k - 1) {
      i := k;
    } else {
      i := RunningMaxAttained(e, k - 1);
    }
  }

  /** From a higher peak the same non-negative trough is a deeper fall. */
  lemma FallAsRatio(a: real, v: real)
    requires a > 0.0
    ensures Fall(a, v) == 1.0 - v / a
  {
    var q, r := (a - v) / a, v / a;
    assert q * a == a - v && r * a == v;
    assert q * a + r * a == a && (q + r) * a == q * a + r * a;
    assert q + r == 1.0;
  }

  lemma FallGrowsWithPeak(a: real, b: real, v: real)
    requires a <= b && 0.0 <= v <= b
    ensures Fall(a, v) <= Fall(b, v)
  {
    if a > 0.0 {
      FallAsRatio(a, v);
      FallAsRatio(b, v);
      var r := v / a;
      assert r * a == v && r >= 0.0;
      assert r * b >= v;
      assert v / b <= r;
    } else if b > 0.0 {
      assert (b - v) / b >= 0.0;
    }
  }

  /** A bound on every peak-to-later-trough fall, reached by one of them. */
  ghost predicate IsPairwiseMaximum(e: seq<real>, dd: real) {
    && (forall i, j :: 0 <= i <= j < |e| ==> Fall(e[i], e[j]) <= dd)
    && (e != [] ==> exists i, j :: 0 <= i <= j < |e| && Fall(e[i], e[j]) == dd)
    && (e == [] ==> dd == 0.0)
  }

  /** The least positive equity up to and including bar k; zero when there is none. */
  function LowestPositive(e: seq<real>, k: nat): real
    requires k < |e|
  {
    var before := if k == 0 then 0.0 else LowestPositive(e, k - 1);
    if e[k] <= 0.0 then before
    else if before == 0.0 then e[k]
    else Min(before, e[k])
  }

  lemma {:induction false} LowestPositiveBounds(e: seq<real>, i: nat, k: nat)
    requires i <= k < |e| && e[i] > 0.0
    ensures 0.0 < LowestPositive(e, k) <= e[i]
  {
    LowestPositiveSign(e, k);
    if i < k {
      LowestPositiveBounds(e, i, k - 1);
    } else if k > 0 {
      LowestPositiveSign(e, k - 1);
    }
  }

  lemma {:induction false} LowestPositiveSign(e: seq<real>, k: nat)
    requires k < |e|
    ensures LowestPositive(e, k) >= 0.0
  {
    if k > 0 {
      LowestPositiveSign(e, k - 1);
    }
  }

  lemma {:induction false} LowestPositiveAttained(e: seq<real>, k: nat) returns (i: nat)
    requires k < |e| && LowestPositive(e, k) > 0.0
    ensures i <= k && e[i] == LowestPositive(e, k)
  {
    if e[k] == LowestPositive(e, k) {
      i := k;
    } else {
      i := LowestPositiveAttained(e, k - 1);
    }
  }

  /** The fall at bar k from the running maximum is at least the one at bar j from the least positive equity. */
  predicate Outweighs(e: seq<real>, k: nat, j: nat)
    requires k < |e| && j < |e|
  {
    RunningMax(e, k) > 0.0 && Times(e[k], LowestPositive(e, j)) <= Times(e[j], RunningMax(e, k))
  }

  /** Every negative bar that follows a positive one is outweighed by a fall from a running maximum. */
  predicate PeaksOutweigh(e: seq<real>) {
    forall j :: 0 <= j < |e| && e[j] < 0.0 && LowestPositive(e, j) > 0.0 ==>
      exists k :: 0 <= k < |e| && Outweighs(e, k, j)
  }

  lemma FallCompare(a: real, v: real, b: real, u: real)
    requires a > 0.0 && b > 0.0
    ensures Fall(a, v) <= Fall(b, u) <==> Times(u, a) <= Times(v, b)
  {
    FallAsRatio(a, v);
    FallAsRatio(b, u);
    var x, y := v / a, u / b;
    assert x * a == v && y * b == u;
    var ab := a * b;
    assert ab > 0.0;
    assert v * b == x * ab && u * a == y * ab;
    if y <= x {
      assert (x - y) * ab >= 0.0;
    } else {
      assert (y - x) * ab > 0.0;
    }
  }

  /** From a lower positive start the same negative end is a deeper fall. */
  lemma LowerStartFallsDeeper(a: real, low: real, v: real)
    requires 0.0 < low <= a && v <= 0.0
    ensures Fall(a, v) <= Fall(low, v)
  {
    FallCompare(a, v, low, v);
    assert (-v) * (a - low) >= 0.0;
  }

  lemma OutweighsIff(e: seq<real>, k: nat, j: nat)
    requires k < |e| && j < |e| && RunningMax(e, k) > 0.0 && LowestPositive(e, j) > 0.0
    ensures Outweighs(e, k, j) <==> Fall(LowestPositive(e, j), e[j]) <= Fall(RunningMax(e, k), e[k])
  {
    FallCompare(LowestPositive(e, j), e[j], RunningMax(e, k), e[k]);
  }

  lemma NegativePairBounded(e: seq<real>, dd: real, i: nat, j: nat, k: nat)
    requires i <= j < |e| && k < |e| && e[i] > 0.0 && e[j] < 0.0 && Outweighs(e, k, j)
    requires Fall(RunningMax(e, k), e[k]) <= dd
    ensures Fall(e[i], e[j]) <= dd
  {
    LowestPositiveBounds(e, i, j);
    OutweighsIff(e, k, j);
    LowerStartFallsDeeper(e[i], LowestPositive(e, j), e[j]);
  }

  lemma PairBounded(e: seq<real>, dd: real, i: nat, j: nat)
    requires IsDeepest(e, dd) && PeaksOutweigh(e) && i <= j < |e|
    ensures Fall(e[i], e[j]) <= dd
  {
    RunningMaxBounds(e, i, j);
    RunningMaxBounds(e, j, j);
    if e[j] >= 0.0 {
      FallGrowsWithPeak(e[i], RunningMax(e, j), e[j]);
    } else if e[i] > 0.0 {
      LowestPositiveBounds(e, i, j);
      var k :| 0 <= k < |e| && Outweighs(e, k, j);
      NegativePairBounded(e, dd, i, j, k);
    }
  }

  lemma PairAttained(e: seq<real>, dd: real)
    requires IsDeepest(e, dd) && e != []
    ensures exists i, j :: 0 <= i <= j < |e| && Fall(e[i], e[j]) == dd
  {
    if dd == 0.0 {
      assert Fall(e[0], e[0]) == 0.0;
    } else {
      var k :| 0 <= k < |e| && Fall(RunningMax(e, k), e[k]) == dd;
      var i := RunningMaxAttained(e, k);
      assert Fall(e[i], e[k]) == dd;
    }
  }

  lemma NegativeEndFalls(low: real, v: real)
    requires low > 0.0 && v < 0.0
    ensures Fall(low, v) > 0.0
  {
    assert Fall(low, v) * low == low - v;
  }

  lemma PairwiseIsOutweighed(e: seq<real>, dd: real, j: nat)
    requires IsDeepest(e, dd) && IsPairwiseMaximum(e, dd)
    requires j < |e| && e[j] < 0.0 && LowestPositive(e, j) > 0.0
    ensures exists k :: 0 <= k < |e| && Outweighs(e, k, j)
  {
    var i := LowestPositiveAttained(e, j);
    NegativeEndFalls(e[i], e[j]);
    assert Fall(e[i], e[j]) <= dd;
    var k :| 0 <= k < |e| && Fall(RunningMax(e, k), e[k]) == dd;
    OutweighsIff(e, k, j);
  }

  /**
   The loop's value is the maximum over all pairs i <= j exactly when every negative bar is outweighed:
   for each, some bar's equity relative to its running maximum is no higher than the negative bar's
   relative to the least positive equity before it.
   */
  lemma PairwiseIff(e: seq<real>, dd: real)
    requires IsDeepest(e, dd)
    ensures IsPairwiseMaximum(e, dd) <==> PeaksOutweigh(e)
  {
    if PeaksOutweigh(e) {
      forall i, j | 0 <= i <= j < |e| ensures Fall(e[i], e[j]) <= dd {
        PairBounded(e, dd, i, j);
      }
      if e != [] {
        PairAttained(e, dd);
      }
    }
    if IsPairwiseMaximum(e, dd) {
      forall j | 0 <= j < |e| && e[j] < 0.0 && LowestPositive(e, j) > 0.0
        ensures exists k :: 0 <= k < |e| && Outweighs(e, k, j)
      {
        PairwiseIsOutweighed(e, dd, j);
      }
    }
  }

  /** In particular it is on equity that never goes negative. */
  lemma DeepestIsPairwise(e: seq<real>, dd: real)
    requires forall k :: 0 <= k < |e| ==> e[k] >= 0.0
    requires IsDeepest(e, dd)
    ensures IsPairwiseMaximum(e, dd)
  {
    PairwiseIff(e, dd);
  }

  /** Both cases occur with negative equity: from 10 to -5 the loop is right, from 1 over 10 to -5 it is not. */
  lemma NegativeEquityGoesBothWays()
    ensures IsDeepest([10.0, -5.0], 1.5) && IsPairwiseMaximum([10.0, -5.0], 1.5)
    ensures IsDeepest([1.0, 10.0, -5.0], 1.5) && !IsPairwiseMaximum([1.0, 10.0, -5.0], 1.5)
  {
    var d := [10.0, -5.0];
    assert RunningMax(d, 0) == 10.0 && RunningMax(d, 1) == 10.0;
    assert Fall(RunningMax(d, 1), d[1]) == 1.5 && Fall(d[0], d[1]) == 1.5;
    var e := [1.0, 10.0, -5.0];
    assert RunningMax(e, 0) == 1.0 && RunningMax(e, 1) == 10.0 && RunningMax(e, 2) == 10.0;
    assert Fall(RunningMax(e, 2), e[2]) == 1.5;
    assert Fall(e[0], e[2]) == 6.0;
  }
}
