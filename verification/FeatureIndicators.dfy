/** The feature engineer's indicator primitives: EMA, RSI, MACD, ATR and Bollinger bands. */
module FeatureIndicators {
  import opened Basics
  import opened Series

  // ------------------------------------------------------------------
  // Specification
  // ------------------------------------------------------------------

  function Gains(closes: seq<real>): seq<real>
    requires closes != []
  {
    seq(|closes| - 1, j requires 0 <= j < |closes| - 1 => Max(closes[j + 1] - closes[j], 0.0))
  }

  function Losses(closes: seq<real>): seq<real>
    requires closes != []
  {
    seq(|closes| - 1, j requires 0 <= j < |closes| - 1 => Max(closes[j] - closes[j + 1], 0.0))
  }

  /** Wilder's average of bar-to-bar changes at bar i; NaN during warm-up. */
  function WilderCell(x: seq<real>, period: nat, i: nat): Cell
    requires period >= 1 && i <= |x|
  {
    if i < period then NaN else Num(WilderAt(x, period, i))
  }

  /** 100 - 100 / (1 + gain / loss). The first case is for totality only: an average gain is never negative. */
  function RelativeStrength(gain: real, loss: real): real
    requires loss > 0.0
  {
    var ratio := gain / loss;
    if 1.0 + ratio == 0.0 then 100.0 else 100.0 - 100.0 / (1.0 + ratio)
  }

  /** Without losses: 100 if there were gains; with neither, 0 on the first bar and 50 afterwards. */
  function RsiValue(first: bool, gain: real, loss: real): real {
    if loss > 0.0 then RelativeStrength(gain, loss)
    else if gain > 0.0 then 100.0
    else if first then 0.0
    else 50.0
  }

  function RsiAt(closes: seq<real>, period: nat, i: nat): real
    requires 1 <= period <= i < |closes|
  {
    RsiValue(i == period, WilderAt(Gains(closes), period, i), WilderAt(Losses(closes), period, i))
  }

  function Rsi(closes: seq<real>, period: nat): seq<Cell>
    requires period >= 1
  {
    seq(|closes|, i requires 0 <= i < |closes| => if i < period then NaN else Num(RsiAt(closes, period, i)))
  }

  function MacdLine(closes: seq<real>, fast: nat, slow: nat): seq<Cell>
    requires fast >= 1 && slow >= 1
  {
    Minus(Ema(closes, fast), Ema(closes, slow))
  }

  /** The mean of the first `period` numbers in the series. */
  function SeedOf(line: seq<Cell>, valid: seq<nat>, period: nat): real
    requires 1 <= period <= |valid| && forall j :: 0 <= j < |valid| ==> valid[j] < |line| && line[valid[j]].Num?
  {
    Mean(seq(period, j requires 0 <= j < period => line[valid[j]].v))
  }

  function SignalLine(line: seq<Cell>, period: nat): seq<Cell>
    requires period >= 1
  {
    var valid := ValidIndices(line, |line|);
    if |valid| < period then AllNaN(|line|)
    else Smoothed(line, Alpha(period), valid[period - 1], SeedOf(line, valid, period))
  }

  function Histogram(closes: seq<real>, fast: nat, slow: nat, period: nat): seq<Cell>
    requires fast >= 1 && slow >= 1 && period >= 1
  {
    var line := MacdLine(closes, fast, slow);
    Minus(line, SignalLine(line, period))
  }

  function TrueRange(high: real, low: real, previousClose: real): real {
    Max(high - low, Max(Abs(high - previousClose), Abs(low - previousClose)))
  }

  /** The true ranges of bars 1 to n. */
  function TrueRangesTo(highs: seq<real>, lows: seq<real>, closes: seq<real>, n: nat): (tr: seq<real>)
    requires |highs| == |lows| == |closes| && n < |closes|
    ensures |tr| == n
    decreases n
  {
    if n == 0 then []
    else TrueRangesTo(highs, lows, closes, n - 1) + [TrueRange(highs[n], lows[n], closes[n - 1])]
  }

  function TrueRanges(highs: seq<real>, lows: seq<real>, closes: seq<real>): seq<real>
    requires |highs| == |lows| == |closes| && closes != []
  {
    TrueRangesTo(highs, lows, closes, |closes| - 1)
  }

  function Atr(highs: seq<real>, lows: seq<real>, closes: seq<real>, period: nat): seq<Cell>
    requires period >= 1 && |highs| == |lows| == |closes|
  {
    seq(|closes|, i requires 0 <= i < |closes| => WilderCell(TrueRanges(highs, lows, closes), period, i))
  }

  function Variance(v: seq<real>): real
    requires v != []
  {
    Mean(seq(|v|, i requires 0 <= i < |v| => Times(v[i] - Mean(v), v[i] - Mean(v))))
  }

  datatype Band = Band(upper: real, middle: real, lower: real)

  /** Square root is a parameter: any deterministic function will do. */
  function BandOf(sqrt: real -> real, window: seq<real>, width: real): Band
    requires window != []
  {
    var m, s := Mean(window), sqrt(Variance(window));
    Band(m + Times(width, s), m, m - Times(width, s))
  }

  /** The band of each bar that has a full window. */
  function BandAt(sqrt: real -> real, closes: seq<real>, period: nat, width: real): nat -> Band
    requires period >= 1
  {
    (i: nat) =>
      if period <= i + 1 <= |closes| then BandOf(sqrt, closes[i + 1 - period..i + 1], width)
      else Band(0.0, 0.0, 0.0)
  }

  datatype BandSeries = BandSeries(upper: seq<Cell>, middle: seq<Cell>, lower: seq<Cell>)

  /** Three series of n cells, NaN before the first full window. */
  function BandCells(n: nat, period: nat, bandAt: nat -> Band): BandSeries
    requires period >= 1
  {
    BandSeries(
      seq(n, i requires 0 <= i < n => if i < period - 1 then NaN else Num(bandAt(i).upper)),
      seq(n, i requires 0 <= i < n => if i < period - 1 then NaN else Num(bandAt(i).middle)),
      seq(n, i requires 0 <= i < n => if i < period - 1 then NaN else Num(bandAt(i).lower)))
  }

  function Bands(sqrt: real -> real, closes: seq<real>, period: nat, width: real): BandSeries
    requires period >= 1
  {
    BandCells(|closes|, period, BandAt(sqrt, closes, period, width))
  }

  // ------------------------------------------------------------------
  // The array-filling loops
  // ------------------------------------------------------------------

  method EmaLoop(values: seq<real>, period: nat) returns (out: seq<Cell>)
    requires period >= 1
    ensures out == Ema(values, period)
  {
    var a := new Cell[|values|](_ => NaN);
    if |values| >= period {
      a[period - 1] := Num(Mean(values[..period]));
      for i := period to |values|
        invariant forall j :: 0 <= j < i ==> a[j] == if j < period - 1 then NaN else Num(EmaAt(values, period, j))
      {
        a[i] := SmoothCell(Alpha(period), Num(values[i]), a[i - 1]);
      }
    }
    out := a[..];
  }

  method RsiLoop(closes: seq<real>, period: nat) returns (out: seq<Cell>)
    requires period >= 1
    ensures out == Rsi(closes, period)
  {
    var a := new Cell[|closes|](_ => NaN);
    if |closes| >= period + 1 {
      var gains, losses := Gains(closes), Losses(closes);
      var gain, loss := Mean(gains[..period]), Mean(losses[..period]);
      a[period] := Num(RsiValue(true, gain, loss));
      for i := period + 1 to |closes|
        invariant gain == WilderAt(gains, period, i - 1) && loss == WilderAt(losses, period, i - 1)
        invariant forall j :: 0 <= j < i ==> a[j] == if j < period then NaN else Num(RsiAt(closes, period, j))
        invariant forall j :: i <= j < |closes| ==> a[j] == NaN
      {
        gain := WilderStep(gain, gains[i - 1], period);
        loss := WilderStep(loss, losses[i - 1], period);
        a[i] := Num(RsiValue(false, gain, loss));
      }
    }
    out := a[..];
  }

  /** The signal line of any series: seed at the period-th number, skip NaNs, smooth the rest. */
  method SignalLoop(line: seq<Cell>, period: nat) returns (out: seq<Cell>)
    requires period >= 1
    ensures out == SignalLine(line, period)
  {
    var a := new Cell[|line|](_ => NaN);
    var valid := ValidIndices(line, |line|);
    if |valid| >= period {
      var start := valid[period - 1];
      var seed := SeedOf(line, valid, period);
      a[start] := Num(seed);
      for i := start + 1 to |line|
        invariant forall j :: 0 <= j < i ==>
          a[j] == if j < start then NaN else SmoothedAt(line, Alpha(period), start, seed, j)
        invariant forall j :: i <= j < |line| ==> a[j] == NaN
      {
        if line[i].NaN? {
          continue;
        }
        a[i] := SmoothCell(Alpha(period), line[i], a[i - 1]);
      }
    }
    out := a[..];
  }

  method MacdLoop(closes: seq<real>, fast: nat, slow: nat, period: nat)
    returns (line: seq<Cell>, signal: seq<Cell>, histogram: seq<Cell>)
    requires fast >= 1 && slow >= 1 && period >= 1
    ensures line == MacdLine(closes, fast, slow) && signal == SignalLine(line, period)
    ensures histogram == Histogram(closes, fast, slow, period)
  {
    var emaFast := EmaLoop(closes, fast);
    var emaSlow := EmaLoop(closes, slow);
    line := Minus(emaFast, emaSlow);
    signal := SignalLoop(line, period);
    histogram := Minus(line, signal);
  }

  method AtrLoop(highs: seq<real>, lows: seq<real>, closes: seq<real>, period: nat) returns (out: seq<Cell>)
    requires period >= 1 && |highs| == |lows| == |closes|
    ensures out == Atr(highs, lows, closes, period)
  {
    var n := |closes|;
    var a := new Cell[n](_ => NaN);
    if n < period + 1 {
      return a[..];
    }
    var tr := TrueRanges(highs, lows, closes);
    a[period] := Num(Mean(tr[..period]));
    for i := period + 1 to n
      invariant forall j :: 0 <= j < i ==> a[j] == WilderCell(tr, period, j)
    {
      assert a[i - 1] == Num(WilderAt(tr, period, i - 1));
      a[i] := Num(WilderStep(a[i - 1].v, tr[i - 1], period));
    }
    out := a[..];
  }

  /** The loop over bars, given the band of each bar. */
  method FillBands(n: nat, period: nat, bandAt: nat -> Band) returns (out: BandSeries)
    requires period >= 1
    ensures out == BandCells(n, period, bandAt)
  {
    var upper, middle, lower := new Cell[n](_ => NaN), new Cell[n](_ => NaN), new Cell[n](_ => NaN);
    if n >= period {
      for i := period - 1 to n
        invariant forall j :: 0 <= j < i ==> upper[j] == if j < period - 1 then NaN else Num(bandAt(j).upper)
        invariant forall j :: 0 <= j < i ==> middle[j] == if j < period - 1 then NaN else Num(bandAt(j).middle)
        invariant forall j :: 0 <= j < i ==> lower[j] == if j < period - 1 then NaN else Num(bandAt(j).lower)
      {
        var band := bandAt(i);
        upper[i], middle[i], lower[i] := Num(band.upper), Num(band.middle), Num(band.lower);
      }
    }
    out := BandSeries(upper[..], middle[..], lower[..]);
  }

  method BollingerLoop(sqrt: real -> real, closes: seq<real>, period: nat, width: real) returns (out: BandSeries)
    requires period >= 1
    ensures out == Bands(sqrt, closes, period, width)
  {
    out := FillBands(|closes|, period, BandAt(sqrt, closes, period, width));
  }

  // ------------------------------------------------------------------
  // Prefix stability of every indicator
  // ------------------------------------------------------------------

  lemma EmaStable(v: seq<real>, m: nat, period: nat, i: nat)
    requires period >= 1 && i < m <= |v|
    ensures Ema(v[..m], period)[i] == Ema(v, period)[i]
  {
    if i >= period - 1 {
      assert v[..m][..m] == v[..m];
      EmaAtStable(v[..m], v, period, i, m);
    }
  }

  lemma RsiStable(v: seq<real>, m: nat, period: nat, i: nat)
    requires period >= 1 && i < m <= |v|
    ensures Rsi(v[..m], period)[i] == Rsi(v, period)[i]
  {
    if i >= period {
      var w := v[..m];
      assert Gains(w)[..i] == Gains(v)[..i] && Losses(w)[..i] == Losses(v)[..i];
      WilderAtStable(Gains(w), Gains(v), period, i, i);
      WilderAtStable(Losses(w), Losses(v), period, i, i);
    }
  }

  lemma {:induction false} TrueRangesStable(h: seq<real>, l: seq<real>, c: seq<real>, m: nat, n: nat, k: nat)
    requires |h| == |l| == |c| && k <= n < m <= |c|
    ensures TrueRangesTo(h[..m], l[..m], c[..m], n)[..k] == TrueRangesTo(h, l, c, k)
    decreases n
  {
    if n > 0 {
      TrueRangesStable(h, l, c, m, n - 1, if k < n then k else n - 1);
    }
  }

  lemma {:induction false} TrueRangesPrefix(h: seq<real>, l: seq<real>, c: seq<real>, n: nat, k: nat)
    requires |h| == |l| == |c| && k <= n < |c|
    ensures TrueRangesTo(h, l, c, n)[..k] == TrueRangesTo(h, l, c, k)
    decreases n
  {
    if k < n {
      TrueRangesPrefix(h, l, c, n - 1, k);
    }
  }

  lemma AtrStable(h: seq<real>, l: seq<real>, c: seq<real>, m: nat, period: nat, i: nat)
    requires period >= 1 && i < m <= |c| && |h| == |l| == |c|
    ensures Atr(h[..m], l[..m], c[..m], period)[i] == Atr(h, l, c, period)[i]
  {
    if i >= period {
      TrueRangesStable(h, l, c, m, m - 1, i);
      TrueRangesPrefix(h, l, c, |c| - 1, i);
      WilderAtStable(TrueRanges(h[..m], l[..m], c[..m]), TrueRanges(h, l, c), period, i, i);
    }
  }

  lemma BandsStable(sqrt: real -> real, v: seq<real>, m: nat, period: nat, width: real, i: nat)
    requires period >= 1 && i < m <= |v|
    ensures var short, full := Bands(sqrt, v[..m], period, width), Bands(sqrt, v, period, width);
            short.upper[i] == full.upper[i] && short.middle[i] == full.middle[i] && short.lower[i] == full.lower[i]
  {
    if i >= period - 1 {
      assert v[..m][i + 1 - period..i + 1] == v[i + 1 - period..i + 1];
      assert BandAt(sqrt, v[..m], period, width)(i) == BandAt(sqrt, v, period, width)(i);
    }
  }

  /** Two series that agree where the early numbers are have the same seed. */
  lemma SeedStable(line: seq<Cell>, valid: seq<nat>, early: seq<nat>, other: seq<Cell>, period: nat)
    requires 1 <= period <= |early| && early <= valid
    requires forall j :: 0 <= j < |valid| ==> valid[j] < |line| && line[valid[j]].Num?
    requires forall j :: 0 <= j < |early| ==> early[j] < |other| && other[early[j]] == line[early[j]]
    ensures SeedOf(line, valid, period) == SeedOf(other, early, period)
  {
    assert seq(period, j requires 0 <= j < period => line[valid[j]].v)
        == seq(period, j requires 0 <= j < period => other[early[j]].v);
  }

  /** The signal line too: a seed found within the prefix is the same seed, a later one changes nothing before it. */
  lemma SignalStable(line: seq<Cell>, other: seq<Cell>, period: nat, m: nat, i: nat)
    requires period >= 1 && i < m <= |line| && m <= |other| && forall j :: 0 <= j < m ==> line[j] == other[j]
    ensures SignalLine(line, period)[i] == SignalLine(other, period)[i]
  {
    var early := ValidIndices(line, m);
    ValidIndicesStable(line, other, m);
    ValidIndicesPrefix(line, m, |line|);
    ValidIndicesPrefix(other, m, |other|);
    if |early| >= period {
      SeedStable(line, ValidIndices(line, |line|), early, line, period);
      SeedStable(other, ValidIndices(other, |other|), early, line, period);
      var start := early[period - 1];
      if i >= start {
        SmoothedAtStable(line, other, Alpha(period), start, SeedOf(line, early, period), i);
      }
    }
  }

  lemma HistogramStable(v: seq<real>, m: nat, fast: nat, slow: nat, period: nat, i: nat)
    requires fast >= 1 && slow >= 1 && period >= 1 && i < m <= |v|
    ensures Histogram(v[..m], fast, slow, period)[i] == Histogram(v, fast, slow, period)[i]
  {
    var short, full := MacdLine(v[..m], fast, slow), MacdLine(v, fast, slow);
    forall j | 0 <= j < m ensures short[j] == full[j] {
      EmaStable(v, m, fast, j);
      EmaStable(v, m, slow, j);
    }
    SignalStable(short, full, period, m, i);
  }
}
