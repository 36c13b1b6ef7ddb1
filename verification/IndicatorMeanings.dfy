/** What the feature engineer's indicators measure. */
module IndicatorMeanings {
  import opened Basics
  import opened Series
  import opened FeatureIndicators
  import NumpyIndicators
  import EmaCrossings

  // ------------------------------------------------------------------
  // Relative strength
  // ------------------------------------------------------------------

  /** A bar-to-bar change is its gain less its loss, and at most one of them is not zero. */
  lemma GainsAndLosses(closes: seq<real>, j: nat)
    requires j + 1 < |closes|
    ensures Gains(closes)[j] - Losses(closes)[j] == closes[j + 1] - closes[j]
    ensures Gains(closes)[j] >= 0.0 && Losses(closes)[j] >= 0.0
    ensures Gains(closes)[j] == 0.0 || Losses(closes)[j] == 0.0
  {
  }

  lemma {:induction false} SumSign(v: seq<real>)
    requires forall i :: 0 <= i < |v| ==> v[i] >= 0.0
    ensures Sum(v) >= 0.0
    ensures Sum(v) > 0.0 <==> exists i :: 0 <= i < |v| && v[i] > 0.0
  {
    if v != [] {
      SumSign(v[..|v| - 1]);
      assert forall i :: 0 <= i < |v| - 1 ==> v[i] == v[..|v| - 1][i];
    }
  }

  lemma MeanSign(v: seq<real>)
    requires v != [] && forall i :: 0 <= i < |v| ==> v[i] >= 0.0
    ensures Mean(v) >= 0.0
    ensures Mean(v) > 0.0 <==> exists i :: 0 <= i < |v| && v[i] > 0.0
  {
    SumSign(v);
    QuotientSign(Sum(v), |v| as real);
  }

  lemma QuotientSign(x: real, n: real)
    requires x >= 0.0 && n > 0.0
    ensures x / n >= 0.0 && (x / n > 0.0 <==> x > 0.0)
  {
    assert x / n * n == x;
  }

  /** Wilder's average of changes that are not negative is positive if the latest or the past average is. */
  lemma WilderStepSign(prev: real, x: real, period: nat)
    requires period >= 1 && prev >= 0.0 && x >= 0.0
    ensures WilderStep(prev, x, period) >= 0.0
    ensures x > 0.0 ==> WilderStep(prev, x, period) > 0.0
    ensures x == 0.0 && prev == 0.0 ==> WilderStep(prev, x, period) == 0.0
  {
    var kept := Times(prev, period as real - 1.0);
    NonnegativeProduct(prev, period as real - 1.0);
    assert prev == 0.0 ==> kept == 0.0;
    QuotientSign(kept + x, period as real);
  }

  lemma NonnegativeProduct(x: real, y: real)
    requires x >= 0.0 && y >= 0.0
    ensures Times(x, y) >= 0.0
  {
  }

  lemma {:induction false} WilderNonnegative(x: seq<real>, period: nat, i: nat)
    requires 1 <= period <= i <= |x| && forall j :: 0 <= j < |x| ==> x[j] >= 0.0
    ensures WilderAt(x, period, i) >= 0.0
    decreases i
  {
    if i == period {
      MeanSign(x[..period]);
    } else {
      WilderNonnegative(x, period, i - 1);
      WilderStepSign(WilderAt(x, period, i - 1), x[i - 1], period);
    }
  }

  lemma WilderPositive(x: seq<real>, period: nat, i: nat)
    requires 1 <= period <= i <= |x| && forall j :: 0 <= j < |x| ==> x[j] > 0.0
    ensures WilderAt(x, period, i) > 0.0
  {
    if i == period {
      assert x[..period][0] > 0.0;
      MeanSign(x[..period]);
    } else {
      WilderNonnegative(x, period, i - 1);
      WilderStepSign(WilderAt(x, period, i - 1), x[i - 1], period);
    }
  }

  lemma {:induction false} WilderZero(x: seq<real>, period: nat, i: nat)
    requires 1 <= period <= i <= |x| && forall j :: 0 <= j < |x| ==> x[j] == 0.0
    ensures WilderAt(x, period, i) == 0.0
    decreases i
  {
    if i == period {
      MeanSign(x[..period]);
    } else {
      WilderZero(x, period, i - 1);
      WilderStepSign(0.0, 0.0, period);
    }
  }

  /** The strength is the share of the gains in all movement, out of 100. */
  lemma StrengthIsShare(gain: real, loss: real)
    requires gain >= 0.0 && loss > 0.0
    ensures Times(RelativeStrength(gain, loss), gain + loss) == 100.0 * gain
    ensures 0.0 <= RelativeStrength(gain, loss) <= 100.0
  {
    var ratio := gain / loss;
    assert ratio * loss == gain;
    QuotientSign(gain, loss);
    var part := 100.0 / (1.0 + ratio);
    assert part * (1.0 + ratio) == 100.0;
    PartOfSum(part, ratio, loss, gain);
    ShareBounds(RelativeStrength(gain, loss), gain, loss);
  }

  lemma PartOfSum(part: real, ratio: real, loss: real, gain: real)
    requires part * (1.0 + ratio) == 100.0 && ratio * loss == gain
    ensures Times(100.0 - part, gain + loss) == 100.0 * gain
  {
    assert gain + loss == (1.0 + ratio) * loss;
    assert part * (gain + loss) == part * (1.0 + ratio) * loss;
  }

  lemma PositiveFactor(d: real, f: real)
    requires f > 0.0
    ensures d >= 0.0 <==> d * f >= 0.0
  {
    if d < 0.0 {
      assert (-d) * f > 0.0;
    }
  }

  lemma TimesOrder(a: real, b: real, f: real)
    requires f > 0.0
    ensures a <= b <==> Times(a, f) <= Times(b, f)
  {
    PositiveFactor(b - a, f);
    assert b * f - a * f == (b - a) * f;
  }

  lemma ShareBounds(share: real, gain: real, loss: real)
    requires gain >= 0.0 && loss > 0.0 && Times(share, gain + loss) == 100.0 * gain
    ensures 0.0 <= share <= 100.0
  {
    TimesOrder(0.0, share, gain + loss);
    TimesOrder(share, 100.0, gain + loss);
  }

  /** Wilder's averages of the gains and of the losses at a bar. */
  lemma AveragesNonnegative(closes: seq<real>, period: nat, i: nat)
    requires 1 <= period <= i < |closes|
    ensures WilderAt(Gains(closes), period, i) >= 0.0 && WilderAt(Losses(closes), period, i) >= 0.0
  {
    forall j | 0 <= j < |closes| - 1 ensures Gains(closes)[j] >= 0.0 && Losses(closes)[j] >= 0.0 {
      GainsAndLosses(closes, j);
    }
    WilderNonnegative(Gains(closes), period, i);
    WilderNonnegative(Losses(closes), period, i);
  }

  /**
   The RSI is the share of the average gain in the average movement, out of 100; where nothing has
   moved it is 50, or 0 on the first bar. It is never outside 0 to 100.
   */
  lemma RsiIsShareOfGains(closes: seq<real>, period: nat, i: nat)
    requires 1 <= period <= i < |closes|
    ensures var gain, loss := WilderAt(Gains(closes), period, i), WilderAt(Losses(closes), period, i);
            && gain >= 0.0 && loss >= 0.0
            && (if gain + loss > 0.0 then Times(RsiAt(closes, period, i), gain + loss) == 100.0 * gain
                else RsiAt(closes, period, i) == if i == period then 0.0 else 50.0)
    ensures 0.0 <= RsiAt(closes, period, i) <= 100.0
  {
    AveragesNonnegative(closes, period, i);
    var gain, loss := WilderAt(Gains(closes), period, i), WilderAt(Losses(closes), period, i);
    if loss > 0.0 {
      StrengthIsShare(gain, loss);
    }
  }

  ghost predicate AllPositive(x: seq<real>) {
    forall j :: 0 <= j < |x| ==> x[j] > 0.0
  }

  ghost predicate AllZero(x: seq<real>) {
    forall j :: 0 <= j < |x| ==> x[j] == 0.0
  }

  lemma NextIsHigher(closes: seq<real>, j: nat)
    requires NumpyIndicators.Increasing(closes) && j + 1 < |closes|
    ensures Gains(closes)[j] > 0.0 && Losses(closes)[j] == 0.0
  {
    assert closes[j] < closes[j + 1];
    GainsAndLosses(closes, j);
  }

  lemma NextIsLower(closes: seq<real>, j: nat)
    requires EmaCrossings.Decreasing(closes) && j + 1 < |closes|
    ensures Gains(closes)[j] == 0.0 && Losses(closes)[j] > 0.0
  {
    assert closes[j] > closes[j + 1];
    GainsAndLosses(closes, j);
  }

  lemma RisingChanges(closes: seq<real>)
    requires closes != [] && NumpyIndicators.Increasing(closes)
    ensures AllPositive(Gains(closes)) && AllZero(Losses(closes))
  {
    forall j: nat | j + 1 < |closes| ensures Gains(closes)[j] > 0.0 && Losses(closes)[j] == 0.0 {
      NextIsHigher(closes, j);
    }
  }

  lemma FallingChanges(closes: seq<real>)
    requires closes != [] && EmaCrossings.Decreasing(closes)
    ensures AllZero(Gains(closes)) && AllPositive(Losses(closes))
  {
    forall j: nat | j + 1 < |closes| ensures Gains(closes)[j] == 0.0 && Losses(closes)[j] > 0.0 {
      NextIsLower(closes, j);
    }
  }

  lemma OneSidedAverages(x: seq<real>, y: seq<real>, period: nat, i: nat)
    requires 1 <= period <= i <= |x| && |x| == |y| && AllPositive(x) && AllZero(y)
    ensures WilderAt(x, period, i) > 0.0 && WilderAt(y, period, i) == 0.0
  {
    WilderPositive(x, period, i);
    WilderZero(y, period, i);
  }

  lemma MonotoneAverages(closes: seq<real>, period: nat, i: nat)
    requires 1 <= period <= i < |closes|
    ensures var gain, loss := WilderAt(Gains(closes), period, i), WilderAt(Losses(closes), period, i);
            && (NumpyIndicators.Increasing(closes) ==> gain > 0.0 && loss == 0.0)
            && (EmaCrossings.Decreasing(closes) ==> gain == 0.0 && loss > 0.0)
  {
    if NumpyIndicators.Increasing(closes) {
      RisingChanges(closes);
      OneSidedAverages(Gains(closes), Losses(closes), period, i);
    }
    if EmaCrossings.Decreasing(closes) {
      FallingChanges(closes);
      OneSidedAverages(Losses(closes), Gains(closes), period, i);
    }
  }

  lemma WholeShare(share: real, gain: real, loss: real)
    requires gain + loss > 0.0 && Times(share, gain + loss) == 100.0 * gain
    ensures loss == 0.0 ==> share == 100.0
    ensures gain == 0.0 ==> share == 0.0
  {
    if loss == 0.0 {
      SameFactor(share, 100.0, gain);
    } else if gain == 0.0 {
      SameFactor(share, 0.0, loss);
    }
  }

  lemma SameFactor(a: real, b: real, f: real)
    requires f > 0.0 && Times(a, f) == Times(b, f)
    ensures a == b
  {
    TimesOrder(a, b, f);
    TimesOrder(b, a, f);
  }

  /** The RSI is 100 on strictly rising closes and 0 on strictly falling ones. */
  lemma RsiExtremes(closes: seq<real>, period: nat, i: nat)
    requires 1 <= period <= i < |closes|
    ensures NumpyIndicators.Increasing(closes) ==> RsiAt(closes, period, i) == 100.0
    ensures EmaCrossings.Decreasing(closes) ==> RsiAt(closes, period, i) == 0.0
  {
    MonotoneAverages(closes, period, i);
    RsiIsShareOfGains(closes, period, i);
    if NumpyIndicators.Increasing(closes) || EmaCrossings.Decreasing(closes) {
      WholeShare(RsiAt(closes, period, i), WilderAt(Gains(closes), period, i), WilderAt(Losses(closes), period, i));
    }
  }

  /** A Wilder step is exponential smoothing with weight 1 / period. */
  lemma WilderIsSmoothing(prev: real, x: real, period: nat)
    requires period >= 1
    ensures WilderStep(prev, x, period) == Smooth(1.0 / period as real, x, prev)
  {
    var n := period as real;
    var w := 1.0 / n;
    assert w * n == 1.0;
    SmoothScaled(w, n, x, prev);
    SameQuotient(Times(prev, n - 1.0) + x, Smooth(w, x, prev), n);
  }

  lemma SmoothScaled(w: real, n: real, x: real, prev: real)
    requires w * n == 1.0
    ensures Times(Smooth(w, x, prev), n) == Times(prev, n - 1.0) + x
  {
    assert x * w * n == x;
    assert prev * w * n == prev;
    assert (x * w + prev * (1.0 - w)) * n == x * w * n + prev * n - prev * w * n;
  }

  lemma SameQuotient(x: real, q: real, n: real)
    requires n > 0.0 && Times(q, n) == x
    ensures x / n == q
  {
  }

  // ------------------------------------------------------------------
  // Ranges and bands
  // ------------------------------------------------------------------

  /** The true range is the greatest of the bar's range and the distances of its ends from the close before. */
  lemma TrueRangeIsGreatest(high: real, low: real, previousClose: real)
    ensures var tr, up, down := TrueRange(high, low, previousClose), high - previousClose, previousClose - low;
            && tr >= high - low && tr >= up && tr >= -up && tr >= down && tr >= -down
            && (tr == high - low || tr == up || tr == -up || tr == down || tr == -down)
  {
  }

  /** For a well-formed bar it is the range stretched to include the close before. */
  lemma TrueRangeOfBar(high: real, low: real, previousClose: real)
    requires low <= high
    ensures TrueRange(high, low, previousClose) == Max(high, previousClose) - Min(low, previousClose)
  {
  }

  lemma {:induction false} TrueRangeAt(highs: seq<real>, lows: seq<real>, closes: seq<real>, n: nat, j: nat)
    requires |highs| == |lows| == |closes| && j < n < |closes|
    ensures TrueRangesTo(highs, lows, closes, n)[j] == TrueRange(highs[j + 1], lows[j + 1], closes[j])
    decreases n
  {
    if j < n - 1 {
      TrueRangeAt(highs, lows, closes, n - 1, j);
    }
  }

  lemma AtrNonnegative(highs: seq<real>, lows: seq<real>, closes: seq<real>, period: nat, i: nat)
    requires |highs| == |lows| == |closes| && 1 <= period <= i < |closes|
    ensures Atr(highs, lows, closes, period)[i].Num? && Atr(highs, lows, closes, period)[i].v >= 0.0
  {
    var tr := TrueRanges(highs, lows, closes);
    forall j | 0 <= j < |tr| ensures tr[j] >= 0.0 {
      TrueRangeAt(highs, lows, closes, |tr|, j);
      TrueRangeIsGreatest(highs[j + 1], lows[j + 1], closes[j]);
    }
    WilderNonnegative(tr, period, i);
  }

  function Squares(v: seq<real>): seq<real> {
    seq(|v|, i requires 0 <= i < |v| => Times(v[i], v[i]))
  }

  function SquaredDistances(v: seq<real>, m: real): seq<real> {
    seq(|v|, i requires 0 <= i < |v| => Times(v[i] - m, v[i] - m))
  }

  lemma {:induction false} SumOfSquaredDistances(v: seq<real>, m: real)
    ensures Sum(SquaredDistances(v, m)) == Sum(Squares(v)) - 2.0 * Times(m, Sum(v)) + Times(|v| as real, Times(m, m))
  {
    if v != [] {
      var n := |v| - 1;
      SumOfSquaredDistances(v[..n], m);
      assert SquaredDistances(v, m)[..n] == SquaredDistances(v[..n], m);
      assert Squares(v)[..n] == Squares(v[..n]);
      OneMoreDistance(v[n], m, Sum(v[..n]), n as real);
    }
  }

  lemma OneMoreDistance(x: real, m: real, s: real, n: real)
    ensures Times(x - m, x - m) == Times(x, x) - 2.0 * Times(m, x) + Times(m, m)
    ensures Times(m, s + x) == Times(m, s) + Times(m, x)
    ensures Times(n + 1.0, Times(m, m)) == Times(n, Times(m, m)) + Times(m, m)
  {
  }

  lemma MeanTimes(v: seq<real>)
    requires v != []
    ensures Times(Mean(v), |v| as real) == Sum(v)
  {
    var q := Sum(v) / |v| as real;
    assert q * |v| as real == Sum(v);
  }

  /** The variance is the mean of the squares less the square of the mean, and never negative. */
  lemma VarianceIsMeanOfSquares(v: seq<real>)
    requires v != []
    ensures Variance(v) == Mean(Squares(v)) - Times(Mean(v), Mean(v))
    ensures Variance(v) >= 0.0
  {
    var m, n := Mean(v), |v| as real;
    var d := SquaredDistances(v, m);
    assert Variance(v) == Mean(d) by {
      assert d == seq(|v|, i requires 0 <= i < |v| => Times(v[i] - Mean(v), v[i] - Mean(v)));
    }
    SumOfSquaredDistances(v, m);
    MeanTimes(v);
    MeanTimes(d);
    MeanTimes(Squares(v));
    SteinerStep(Mean(d), Mean(Squares(v)), m, n);
    forall i | 0 <= i < |d| ensures d[i] >= 0.0 {
      SquareSign(v[i] - m);
    }
    MeanSign(d);
  }

  lemma SquareSign(x: real)
    ensures Times(x, x) >= 0.0
  {
  }

  lemma SteinerStep(d: real, sq: real, m: real, n: real)
    requires n > 0.0
    requires Times(d, n) == Times(sq, n) - 2.0 * Times(m, Times(m, n)) + Times(n, Times(m, m))
    ensures d == sq - Times(m, m)
  {
    assert Times(m, Times(m, n)) == Times(m, m) * n;
    assert (d - sq + m * m) * n == 0.0;
  }

  /**
   The bands lie symmetrically about the mean of the last `period` closes, `width` deviations away; the
   deviation is the root of the mean square less the squared mean.
   */
  lemma BandsAreSymmetric(sqrt: real -> real, closes: seq<real>, period: nat, width: real, i: nat)
    returns (window: seq<real>, deviation: real)
    requires 1 <= period <= i + 1 <= |closes|
    ensures |window| == period && forall j :: 0 <= j < period ==> window[j] == closes[i + 1 - period + j]
    ensures deviation == sqrt(Mean(Squares(window)) - Times(Mean(window), Mean(window)))
    ensures var bands := Bands(sqrt, closes, period, width);
            && bands.upper[i] == Num(Mean(window) + Times(width, deviation))
            && bands.middle[i] == Num(Mean(window))
            && bands.lower[i] == Num(Mean(window) - Times(width, deviation))
  {
    window := closes[i + 1 - period..i + 1];
    VarianceIsMeanOfSquares(window);
    deviation := sqrt(Variance(window));
  }

  // ------------------------------------------------------------------
  // MACD
  // ------------------------------------------------------------------

  lemma LineIsPrefixed(closes: seq<real>, fast: nat, slow: nat)
    requires 1 <= fast <= slow <= |closes|
    ensures NaNPrefixed(MacdLine(closes, fast, slow), slow - 1)
    ensures forall i :: slow - 1 <= i < |closes| ==>
              MacdLine(closes, fast, slow)[i].v == EmaAt(closes, fast, i) - EmaAt(closes, slow, i)
  {
  }

  lemma {:induction false} SmoothedIsNumber(data: seq<Cell>, alpha: real, start: nat, seed: real, i: nat)
    requires start <= i < |data| && forall j :: start <= j < |data| ==> data[j].Num?
    ensures SmoothedAt(data, alpha, start, seed, i).Num?
    decreases i
  {
    if i > start {
      SmoothedIsNumber(data, alpha, start, seed, i - 1);
    }
  }

  /** The histogram has numbers from bar slow + period - 2 on: bar 33 for 12, 26 and 9. */
  lemma HistogramStarts(closes: seq<real>, fast: nat, slow: nat, period: nat, i: nat)
    requires 1 <= fast <= slow <= |closes| && period >= 1 && i < |closes|
    ensures Histogram(closes, fast, slow, period)[i].Num? <==> i >= slow + period - 2
  {
    var line := MacdLine(closes, fast, slow);
    LineIsPrefixed(closes, fast, slow);
    ValidOfPrefixed(line, slow - 1, |line|);
    var valid := ValidIndices(line, |line|);
    if |valid| >= period && i >= valid[period - 1] {
      SmoothedIsNumber(line, Alpha(period), valid[period - 1], SeedOf(line, valid, period), i);
    }
  }
}
