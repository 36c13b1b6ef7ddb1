/** What the crossover signal says about the two EMAs, and its mirror on falling prices. */
module EmaCrossings {
  import opened Basics
  import opened Series
  import opened NumpyIndicators

  // ------------------------------------------------------------------
  // The signal
  // ------------------------------------------------------------------

  /** The short EMA is above the long one at bar i; during warm-up it is not. */
  predicate ShortIsAbove(v: seq<real>, short: nat, long: nat, i: nat)
    requires i < |v|
  {
    1 <= short <= i + 1 && 1 <= long <= i + 1 && EmaAt(v, short, i) > EmaAt(v, long, i)
  }

  /** The EMAs are more than 0.3% of a positive long EMA apart. */
  predicate IsWide(short: real, long: real) {
    long > 0.0 && 1000.0 * Abs(short - long) > 3.0 * long
  }

  lemma QuotientOrder(spread: real, long: real, t: real)
    requires long > 0.0
    ensures spread / long > t <==> spread > Times(t, long)
    ensures spread / long < t <==> spread < Times(t, long)
  {
    var q := spread / long;
    assert q * long == spread;
    Ordered(q, t, long);
    Ordered(t, q, long);
  }

  lemma Ordered(a: real, b: real, f: real)
    requires f > 0.0
    ensures a > b <==> Times(a, f) > Times(b, f)
  {
    if a > b {
      assert (a - b) * f > 0.0;
    } else {
      assert (b - a) * f >= 0.0;
    }
  }

  lemma SpreadIsWide(short: real, long: real)
    ensures Abs(SpreadPct(short, long)) > 0.3 <==> IsWide(short, long)
    ensures short > long ==> (SpreadPct(short, long) > 0.3 <==> IsWide(short, long))
  {
    if long > 0.0 {
      QuotientOrder(short - long, long, 0.003);
      QuotientOrder(short - long, long, -0.003);
    }
  }

  /** What the result says of the last two values of the EMAs. */
  predicate Says(r: EmaCross, short: real, long: real, wasAbove: bool) {
    && r.short == short && r.long == long && (r.crossover <==> wasAbove != (short > long))
    && (r.signal == StrongBuy <==> !wasAbove && short > long)
    && (r.signal == StrongSell <==> wasAbove && short <= long)
    && (r.signal == BuySignal <==> wasAbove && short > long && IsWide(short, long))
    && (r.signal == SellSignal <==> !wasAbove && short <= long && IsWide(short, long))
  }

  lemma CrossSays(short: real, long: real, wasAbove: bool)
    ensures Says(CrossOf(short, long, wasAbove), short, long, wasAbove)
  {
    SpreadIsWide(short, long);
  }

  lemma LastCells(v: seq<real>, period: nat, i: nat)
    requires period >= 1 && i < |v|
    ensures EmaCells(Lift(v), period)[i] == if i + 1 < period then NaN else Num(EmaAt(v, period, i))
  {
    EmaAgrees(v, period);
  }

  lemma AboveIff(v: seq<real>, short: nat, long: nat, i: nat)
    requires short >= 1 && long >= 1 && i < |v|
    ensures Above(EmaCells(Lift(v), short)[i], EmaCells(Lift(v), long)[i]) <==> ShortIsAbove(v, short, long, i)
  {
    LastCells(v, short, i);
    LastCells(v, long, i);
  }

  /**
   The crossover signal on any closes. It is a strong buy exactly when the short EMA is above the long
   one on the last bar and was not on the bar before, a strong sell exactly the other way round; without
   a crossing it follows the side of the short EMA if the two are more than 0.3% apart.
   */
  lemma CrossSignalIff(v: seq<real>, short: nat, long: nat)
    requires short >= 1 && long >= 1
    ensures var r, n := ComputeEmaCross(v, short, long), |v|;
            if n < long + 1 || n < short then r.None?
            else r.Some? && Says(r.value, EmaAt(v, short, n - 1), EmaAt(v, long, n - 1),
                                 ShortIsAbove(v, short, long, n - 2))
  {
    var n := |v|;
    if n >= long + 1 {
      LastCells(v, short, n - 1);
      LastCells(v, long, n - 1);
      AboveIff(v, short, long, n - 2);
      if n >= short {
        CrossSays(EmaAt(v, short, n - 1), EmaAt(v, long, n - 1), ShortIsAbove(v, short, long, n - 2));
      }
    }
  }

  // ------------------------------------------------------------------
  // Falling prices
  // ------------------------------------------------------------------

  ghost predicate Decreasing(v: seq<real>) {
    forall i, j :: 0 <= i < j < |v| ==> v[i] > v[j]
  }

  function Negated(v: seq<real>): seq<real> {
    seq(|v|, i requires 0 <= i < |v| => -v[i])
  }

  lemma {:induction false} SumOfNegated(v: seq<real>)
    ensures Sum(Negated(v)) == -Sum(v)
  {
    if v != [] {
      var n := |v| - 1;
      SumOfNegated(v[..n]);
      assert Negated(v)[..n] == Negated(v[..n]);
    }
  }

  lemma MeanOfNegated(v: seq<real>)
    requires v != []
    ensures Mean(Negated(v)) == -Mean(v)
  {
    SumOfNegated(v);
  }

  lemma {:induction false} EmaOfNegated(v: seq<real>, period: nat, i: nat)
    requires 1 <= period <= i + 1 <= |v|
    ensures EmaAt(Negated(v), period, i) == -EmaAt(v, period, i)
    decreases i
  {
    if i == period - 1 {
      assert Negated(v)[..period] == Negated(v[..period]);
      MeanOfNegated(v[..period]);
    } else {
      EmaOfNegated(v, period, i - 1);
      SmoothNegated(Alpha(period), v[i], EmaAt(v, period, i - 1));
    }
  }

  lemma SmoothNegated(alpha: real, x: real, prev: real)
    ensures Smooth(alpha, -x, -prev) == -Smooth(alpha, x, prev)
  {
  }

  /** On strictly falling prices the short EMA is below the long one wherever both exist. */
  lemma ShortBelowLong(v: seq<real>, short: nat, long: nat, i: nat)
    requires Decreasing(v) && 1 <= short < long <= i + 1 <= |v|
    ensures EmaAt(v, short, i) < EmaAt(v, long, i)
  {
    ShortAboveLong(Negated(v), short, long, i);
    EmaOfNegated(v, short, i);
    EmaOfNegated(v, long, i);
  }

  /**
   On strictly falling prices the crossover signal reports no crossover and only SELL or NEUTRAL, and the
   MACD line is negative at every bar where it exists.
   */
  lemma FallingPricesNeverCross(v: seq<real>, short: nat, long: nat)
    requires Decreasing(v) && 1 <= short < long
    ensures |v| >= long + 1 ==>
              var r := ComputeEmaCross(v, short, long);
              r.Some? && !r.value.crossover && r.value.short < r.value.long
              && r.value.signal == if IsWide(r.value.short, r.value.long) then SellSignal else Neutral
    ensures forall i :: long - 1 <= i < |v| ==>
              MacdLine(v, short, long)[i].Num? && MacdLine(v, short, long)[i].v < 0.0
  {
    CrossSignalIff(v, short, long);
    forall i | long - 1 <= i < |v|
      ensures MacdLine(v, short, long)[i].Num? && MacdLine(v, short, long)[i].v < 0.0
      ensures !ShortIsAbove(v, short, long, i)
    {
      LastCells(v, short, i);
      LastCells(v, long, i);
      ShortBelowLong(v, short, long, i);
    }
    if |v| >= long + 1 {
      ShortBelowLong(v, short, long, |v| - 1);
    }
  }
}
