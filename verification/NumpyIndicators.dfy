/**
 The rule-based generator's own NumPy indicators: the second implementation of EMA, MACD and ATR, their
 agreement with the feature engineer's, and the order of two EMAs.
 */
module NumpyIndicators {
  import opened Basics
  import opened Series
  import F = FeatureIndicators

  // ------------------------------------------------------------------
  // Specification
  // ------------------------------------------------------------------

  function NumbersOf(data: seq<Cell>): seq<real> {
    if data == [] then []
    else
      var rest, last := NumbersOf(data[..|data| - 1]), data[|data| - 1];
      if last.Num? then rest + [last.v] else rest
  }

  function NanMean(data: seq<Cell>): real {
    var v := NumbersOf(data);
    if v == [] then 0.0 else Mean(v)
  }

  /** The last `period` entries, NaN or not, between the first number and the seed position. */
  function SeedWindow(data: seq<Cell>, first: nat, start: nat, period: nat): seq<Cell>
    requires first <= start < |data|
  {
    var window := data[first..start + 1];
    if |window| <= period then window else window[|window| - period..]
  }

  /** EMA of data that may hold NaN. */
  function EmaCells(data: seq<Cell>, period: nat): seq<Cell>
    requires period >= 1
  {
    var valid := ValidIndices(data, |data|);
    if |valid| < period then AllNaN(|data|)
    else
      var start := valid[period - 1];
      Smoothed(data, Alpha(period), start, NanMean(SeedWindow(data, valid[0], start, period)))
  }

  function MacdLine(closes: seq<real>, fast: nat, slow: nat): seq<Cell>
    requires fast >= 1 && slow >= 1
  {
    Minus(EmaCells(Lift(closes), fast), EmaCells(Lift(closes), slow))
  }

  // ------------------------------------------------------------------
  // The loops
  // ------------------------------------------------------------------

  method EmaNumpy(data: seq<Cell>, period: nat) returns (result: seq<Cell>)
    requires period >= 1
    ensures result == EmaCells(data, period)
  {
    var a := new Cell[|data|](_ => NaN);
    var valid := ValidIndices(data, |data|);
    if |valid| < period {
      return a[..];
    }
    var start := valid[period - 1];
    var seed := NanMean(SeedWindow(data, valid[0], start, period));
    a[start] := Num(seed);
    for i := start + 1 to |data|
      invariant forall j :: 0 <= j < i ==>
        a[j] == if j < start then NaN else SmoothedAt(data, Alpha(period), start, seed, j)
      invariant forall j :: i <= j < |data| ==> a[j] == NaN
    {
      if data[i].Num? {
        a[i] := SmoothCell(Alpha(period), data[i], a[i - 1]);
      }
    }
    result := a[..];
  }

  method MacdNumpy(closes: seq<real>, fast: nat, slow: nat, signal: nat)
    returns (line: seq<Cell>, signalLine: seq<Cell>, histogram: seq<Cell>)
    requires fast >= 1 && slow >= 1 && signal >= 1
    ensures line == MacdLine(closes, fast, slow) && signalLine == EmaCells(line, signal)
    ensures histogram == Minus(line, signalLine)
  {
    var emaFast := EmaNumpy(Lift(closes), fast);
    var emaSlow := EmaNumpy(Lift(closes), slow);
    line := Minus(emaFast, emaSlow);
    signalLine := EmaNumpy(line, signal);
    histogram := Minus(line, signalLine);
  }

  /** Proved against the feature engineer's ATR, so the two agree on every input. */
  method AtrNumpy(highs: seq<real>, lows: seq<real>, closes: seq<real>, period: nat) returns (result: seq<Cell>)
    requires period >= 1 && |highs| == |lows| == |closes|
    ensures result == F.Atr(highs, lows, closes, period)
  {
    var n := |closes|;
    var a := new Cell[n](_ => NaN);
    if n == 0 {
      return a[..];
    }
    var tr := F.TrueRanges(highs, lows, closes);
    if |tr| >= period {
      a[period] := Num(Mean(tr[..period]));
      for i := period + 1 to n
        invariant forall j :: 0 <= j < i ==> a[j] == F.WilderCell(tr, period, j)
        invariant forall j :: i <= j < n ==> a[j] == NaN
      {
        assert a[i - 1] == Num(WilderAt(tr, period, i - 1));
        a[i] := Num(WilderStep(a[i - 1].v, tr[i - 1], period));
      }
    }
    result := a[..];
  }

  // ------------------------------------------------------------------
  // Two implementations agree
  // ------------------------------------------------------------------

  lemma {:induction false} NumbersOfNumbers(data: seq<Cell>)
    requires forall i :: 0 <= i < |data| ==> data[i].Num?
    ensures NumbersOf(data) == seq(|data|, i requires 0 <= i < |data| => data[i].v)
  {
    if data != [] {
      NumbersOfNumbers(data[..|data| - 1]);
    }
  }

  lemma SeedNumbers(data: seq<Cell>, k: nat, period: nat)
    requires NaNPrefixed(data, k) && period >= 1 && |ValidIndices(data, |data|)| >= period
    ensures k + period <= |data| && forall j :: k <= j < k + period ==> data[j].Num?
    ensures var valid := ValidIndices(data, |data|);
            NumbersOf(data[k..k + period]) == seq(period, j requires 0 <= j < period => data[valid[j]].v)
  {
    ValidOfPrefixed(data, k, |data|);
    NumbersOfNumbers(data[k..k + period]);
  }

  /** On NaN-prefixed data both implementations find the same seed. */
  lemma SeedsAgree(data: seq<Cell>, k: nat, period: nat)
    requires NaNPrefixed(data, k) && period >= 1 && |ValidIndices(data, |data|)| >= period
    ensures var valid := ValidIndices(data, |data|);
            && valid[0] == k && valid[period - 1] == k + period - 1
            && NanMean(SeedWindow(data, k, k + period - 1, period)) == F.SeedOf(data, valid, period)
  {
    var valid := ValidIndices(data, |data|);
    ValidOfPrefixed(data, k, |data|);
    SeedNumbers(data, k, period);
    assert SeedWindow(data, k, k + period - 1, period) == data[k..k + period];
  }

  /** The signal line of the feature engineer is this module's EMA, on any NaN-prefixed series. */
  lemma SignalAgrees(data: seq<Cell>, k: nat, period: nat)
    requires NaNPrefixed(data, k) && period >= 1
    ensures EmaCells(data, period) == F.SignalLine(data, period)
  {
    if |ValidIndices(data, |data|)| >= period {
      SeedsAgree(data, k, period);
    }
  }

  lemma {:induction false} SmoothedIsEma(v: seq<real>, period: nat, i: nat)
    requires 1 <= period <= i + 1 <= |v|
    ensures SmoothedAt(Lift(v), Alpha(period), period - 1, Mean(v[..period]), i) == Num(EmaAt(v, period, i))
    decreases i
  {
    if i >= period {
      SmoothedIsEma(v, period, i - 1);
    }
  }

  lemma SmoothedLift(v: seq<real>, period: nat)
    requires 1 <= period <= |v|
    ensures Smoothed(Lift(v), Alpha(period), period - 1, Mean(v[..period])) == Ema(v, period)
  {
    var s, e := Smoothed(Lift(v), Alpha(period), period - 1, Mean(v[..period])), Ema(v, period);
    forall i | 0 <= i < |v| ensures s[i] == e[i] {
      if i >= period - 1 {
        SmoothedIsEma(v, period, i);
      }
    }
  }

  lemma LiftIsSeeded(v: seq<real>, period: nat)
    requires 1 <= period <= |v|
    ensures EmaCells(Lift(v), period) == Smoothed(Lift(v), Alpha(period), period - 1, Mean(v[..period]))
  {
    var data := Lift(v);
    var valid := ValidIndices(data, |data|);
    ValidOfPrefixed(data, 0, |data|);
    SeedsAgree(data, 0, period);
    assert seq(period, j requires 0 <= j < period => data[valid[j]].v) == v[..period];
  }

  /** On NaN-free input the two EMAs are equal, NaN positions included. */
  lemma EmaAgrees(v: seq<real>, period: nat)
    requires period >= 1
    ensures EmaCells(Lift(v), period) == Ema(v, period)
  {
    if |v| >= period {
      LiftIsSeeded(v, period);
      SmoothedLift(v, period);
    } else {
      ValidOfPrefixed(Lift(v), 0, |v|);
      assert AllNaN(|v|) == Ema(v, period);
    }
  }

  /** On NaN-free closes the two MACDs are equal: line, signal line and histogram. */
  lemma MacdAgrees(closes: seq<real>, fast: nat, slow: nat, signal: nat)
    requires fast >= 1 && slow >= 1 && signal >= 1
    ensures MacdLine(closes, fast, slow) == F.MacdLine(closes, fast, slow)
    ensures EmaCells(MacdLine(closes, fast, slow), signal) == F.SignalLine(F.MacdLine(closes, fast, slow), signal)
    ensures Minus(MacdLine(closes, fast, slow), EmaCells(MacdLine(closes, fast, slow), signal))
            == F.Histogram(closes, fast, slow, signal)
  {
    EmaAgrees(closes, fast);
    EmaAgrees(closes, slow);
    var line := F.MacdLine(closes, fast, slow);
    var warmup := (if fast >= slow then fast else slow) - 1;
    SignalAgrees(line, if warmup <= |closes| then warmup else |closes|, signal);
  }

  // ------------------------------------------------------------------
  // EMA order on rising prices
  // ------------------------------------------------------------------

  ghost predicate Increasing(v: seq<real>) {
    forall i, j :: 0 <= i < j < |v| ==> v[i] < v[j]
  }

  lemma {:induction false} SumBelow(v: seq<real>, bound: real)
    requires v != [] && forall i :: 0 <= i < |v| ==> v[i] < bound
    ensures Sum(v) < Times(|v| as real, bound)
  {
    if |v| == 1 {
      assert v[..0] == [];
    } else {
      SumBelow(v[..|v| - 1], bound);
      assert Times(|v| as real, bound) == Times((|v| - 1) as real, bound) + bound;
    }
  }

  lemma CancelLess(a: real, b: real, n: real)
    requires n > 0.0 && a * n < b * n
    ensures a < b
  {
  }

  lemma MeanBelow(v: seq<real>, bound: real)
    requires v != [] && forall i :: 0 <= i < |v| ==> v[i] < bound
    ensures Mean(v) < bound
  {
    SumBelow(v, bound);
    var n := |v| as real;
    assert Mean(v) * n == Sum(v) && Times(n, bound) == n * bound;
    CancelLess(Mean(v), bound, n);
  }

  lemma SmoothBetween(alpha: real, x: real, prev: real, bound: real)
    requires 0.0 <= alpha <= 1.0 && x < bound && prev < bound
    ensures Smooth(alpha, x, prev) < bound
  {
    assert Smooth(alpha, x, prev) - bound == (x - bound) * alpha + (prev - bound) * (1.0 - alpha);
    if alpha == 0.0 {
    } else {
      assert (x - bound) * alpha < 0.0;
      assert (prev - bound) * (1.0 - alpha) <= 0.0;
    }
  }

  lemma AlphaBounds(period: nat)
    requires period >= 1
    ensures 0.0 < Alpha(period) <= 1.0
  {
  }

  /** An EMA stays below any later, higher price. */
  lemma {:induction false} EmaBelow(v: seq<real>, period: nat, i: nat, bound: real)
    requires 1 <= period <= i + 1 <= |v| && forall j :: 0 <= j <= i ==> v[j] < bound
    ensures EmaAt(v, period, i) < bound
    decreases i
  {
    if i == period - 1 {
      MeanBelow(v[..period], bound);
    } else {
      EmaBelow(v, period, i - 1, bound);
      AlphaBounds(period);
      SmoothBetween(Alpha(period), v[i], EmaAt(v, period, i - 1), bound);
    }
  }

  /** Adding one value moves the mean a k-th of the way towards it. */
  lemma MeanStep(v: seq<real>, k: nat)
    requires 1 <= k < |v|
    ensures Mean(v[..k + 1]) == Smooth(1.0 / (k as real + 1.0), v[k], Mean(v[..k]))
  {
    assert v[..k + 1][..k] == v[..k];
    var n, m := k as real, Mean(v[..k]);
    assert m * n == Sum(v[..k]);
    var w := 1.0 / (n + 1.0);
    assert w * (n + 1.0) == 1.0;
    assert Smooth(w, v[k], m) == v[k] * w + m * (1.0 - w);
    assert Mean(v[..k + 1]) == (m * n + v[k]) / (n + 1.0);
    assert (v[k] * w + m * (1.0 - w)) * (n + 1.0) == v[k] * (w * (n + 1.0)) + m * ((n + 1.0) - w * (n + 1.0));
  }

  /** Moving further towards a higher price, from at least as high, ends higher. */
  lemma FasterIsHigher(a: real, b: real, x: real, p: real, q: real)
    requires 0.0 < b < a <= 1.0 && q <= p < x
    ensures Smooth(a, x, p) > Smooth(b, x, q)
  {
    assert Smooth(a, x, p) - Smooth(b, x, q) == (x - p) * (a - b) + (p - q) * (1.0 - b);
    assert (x - p) * (a - b) > 0.0;
    assert (p - q) * (1.0 - b) >= 0.0;
  }

  /** The short EMA, once seeded, is at least the plain mean of everything seen, and above it after a step. */
  lemma {:induction false} EmaAboveMean(v: seq<real>, period: nat, k: nat)
    requires Increasing(v) && 1 <= period <= k <= |v|
    ensures EmaAt(v, period, k - 1) >= Mean(v[..k])
    ensures k > period ==> EmaAt(v, period, k - 1) > Mean(v[..k])
    decreases k
  {
    if k > period {
      EmaAboveMean(v, period, k - 1);
      MeanStep(v, k - 1);
      EmaBelow(v, period, k - 2, v[k - 1]);
      AlphaBounds(period);
      var w := 1.0 / (k as real);
      assert Alpha(period) > w by {
        ReciprocalOrder(period, k);
      }
      FasterIsHigher(Alpha(period), w, v[k - 1], EmaAt(v, period, k - 2), Mean(v[..k - 1]));
    }
  }

  lemma ReciprocalOrder(period: nat, k: nat)
    requires 1 <= period < k
    ensures 0.0 < 1.0 / (k as real) < Alpha(period)
  {
    var p, n := period as real + 1.0, k as real;
    assert p <= n;
    assert 1.0 / n > 0.0;
    assert Alpha(period) == 2.0 / p;
    assert 2.0 / p * p == 2.0 && 1.0 / n * n == 1.0;
    assert 2.0 / p * n >= 2.0 / p * p;
    CancelLess(1.0 / n, 2.0 / p, n);
  }

  /** Of two fractions of the same positive amount, the one with the larger divisor is smaller. */
  lemma LargerDivisor(x: real, y: real, p: real, q: real)
    requires 0.0 < p < q && x * p == 2.0 && y * q == 2.0
    ensures y < x
  {
    assert x > 0.0;
    assert x * (q - p) > 0.0;
    CancelLess(y, x, q);
  }

  lemma AlphaOrder(short: nat, long: nat)
    requires 1 <= short < long
    ensures Alpha(long) < Alpha(short)
  {
    var p, q := short as real + 1.0, long as real + 1.0;
    assert 2.0 / p * p == 2.0;
    assert 2.0 / q * q == 2.0;
    LargerDivisor(2.0 / p, 2.0 / q, p, q);
  }

  /** On strictly rising prices the short EMA is above the long one wherever both exist. */
  lemma {:induction false} ShortAboveLong(v: seq<real>, short: nat, long: nat, i: nat)
    requires Increasing(v) && 1 <= short < long <= i + 1 <= |v|
    ensures EmaAt(v, short, i) > EmaAt(v, long, i)
    decreases i
  {
    if i == long - 1 {
      EmaAboveMean(v, short, long);
    } else {
      ShortAboveLong(v, short, long, i - 1);
      EmaBelow(v, short, i - 1, v[i]);
      AlphaOrder(short, long);
      AlphaBounds(short);
      AlphaBounds(long);
      FasterIsHigher(Alpha(short), Alpha(long), v[i], EmaAt(v, short, i - 1), EmaAt(v, long, i - 1));
    }
  }

  // ------------------------------------------------------------------
  // The crossover signal
  // ------------------------------------------------------------------

  datatype Direction = StrongBuy | BuySignal | Neutral | SellSignal | StrongSell

  datatype EmaCross = EmaCross(short: real, long: real, spreadPct: real, crossover: bool, signal: Direction)

  /** A comparison with NaN is false. */
  predicate Above(a: Cell, b: Cell) {
    a.Num? && b.Num? && a.v > b.v
  }

  /** The spread in percent of the long EMA. */
  function SpreadPct(short: real, long: real): real {
    if long > 0.0 then (short - long) / long * 100.0 else 0.0
  }

  /** The signal of the last two EMA values, given whether the short one was above on the bar before. */
  function CrossOf(short: real, long: real, wasAbove: bool): EmaCross {
    var isAbove, pct := short > long, SpreadPct(short, long);
    var signal :=
      if wasAbove != isAbove then if isAbove then StrongBuy else StrongSell
      else if isAbove then if pct > 0.3 then BuySignal else Neutral
      else if Abs(pct) > 0.3 then SellSignal else Neutral;
    EmaCross(short, long, pct, wasAbove != isAbove, signal)
  }

  /** compute_ema_cross without TA-Lib; None where it raises: too few closes, or a NaN on the last bar. */
  function ComputeEmaCross(closes: seq<real>, short: nat, long: nat): Option<EmaCross>
    requires short >= 1 && long >= 1
  {
    var n := |closes|;
    if n < long + 1 then None
    else
      var s, l := EmaCells(Lift(closes), short), EmaCells(Lift(closes), long);
      if s[n - 1].NaN? || l[n - 1].NaN? then None
      else
        Some(CrossOf(s[n - 1].v, l[n - 1].v, Above(s[n - 2], l[n - 2])))
  }

  /**
   On strictly rising prices the crossover signal reports no crossover and only BUY or NEUTRAL, and the
   MACD line is positive at every bar where it exists.
   */
  lemma RisingPricesNeverCross(closes: seq<real>, short: nat, long: nat)
    requires Increasing(closes) && 1 <= short < long
    ensures |closes| >= long + 1 ==>
              var r := ComputeEmaCross(closes, short, long);
              r.Some? && !r.value.crossover && r.value.short > r.value.long
              && (r.value.signal == BuySignal || r.value.signal == Neutral)
    ensures forall i :: long - 1 <= i < |closes| ==>
              MacdLine(closes, short, long)[i].Num? && MacdLine(closes, short, long)[i].v > 0.0
  {
    EmaAgrees(closes, short);
    EmaAgrees(closes, long);
    forall i | long - 1 <= i < |closes|
      ensures EmaCells(Lift(closes), short)[i] == Num(EmaAt(closes, short, i))
      ensures EmaCells(Lift(closes), long)[i] == Num(EmaAt(closes, long, i))
      ensures EmaAt(closes, short, i) > EmaAt(closes, long, i)
    {
      ShortAboveLong(closes, short, long, i);
    }
  }
}
