/**
 The feature engineer: thirty features of one bar, computed for a whole history at training time and
 for the rolling buffer at inference time.
 */
module Features {
  import opened Basics
  import opened Market
  import opened Series
  import opened FeatureIndicators

  const MIN_BARS: nat := 60

  /** math.log, math.sqrt, math.sin, math.cos and math.pi: any deterministic functions. */
  datatype Libm = Libm(log: real -> real, sqrt: real -> real, sin: real -> real, cos: real -> real, pi: real)

  /** Parallel OHLCV arrays. */
  datatype Arrays = Arrays(
    opens: seq<real>,
    highs: seq<real>,
    lows: seq<real>,
    closes: seq<real>,
    volumes: seq<real>,
    times: seq<int>)
  {
    predicate Aligned() {
      |opens| == |highs| == |lows| == |closes| == |volumes| == |times|
    }
  }

  type Bars = b: Arrays | b.Aligned() witness Arrays([], [], [], [], [], [])

  function Take(b: Bars, m: nat): Bars
    requires m <= |b.closes|
  {
    Arrays(b.opens[..m], b.highs[..m], b.lows[..m], b.closes[..m], b.volumes[..m], b.times[..m])
  }

  function ToBars(cs: seq<Candle>): (b: Bars)
    ensures |b.closes| == |cs|
  {
    var n := |cs|;
    Arrays(
      seq(n, i requires 0 <= i < n => cs[i].open),
      seq(n, i requires 0 <= i < n => cs[i].high),
      seq(n, i requires 0 <= i < n => cs[i].low),
      seq(n, i requires 0 <= i < n => cs[i].close),
      seq(n, i requires 0 <= i < n => cs[i].volume),
      seq(n, i requires 0 <= i < n => cs[i].time))
  }

  /** The indicator series, computed once over the arrays at hand. */
  datatype Precomputed = Precomputed(
    rsi14: seq<Cell>,
    rsi7: seq<Cell>,
    macdHist: seq<Cell>,
    atr14: seq<Cell>,
    bands: BandSeries,
    ema9: seq<Cell>,
    ema21: seq<Cell>,
    ema50: seq<Cell>)

  function Precompute(lib: Libm, b: Bars): Precomputed {
    Precomputed(
      Rsi(b.closes, 14), Rsi(b.closes, 7), Histogram(b.closes, 12, 26, 9), Atr(b.highs, b.lows, b.closes, 14),
      Bands(lib.sqrt, b.closes, 20, 2.0), Ema(b.closes, 9), Ema(b.closes, 21), Ema(b.closes, 50))
  }

  /** Everything the feature row of one bar reads. */
  datatype Reading = Reading(
    open: real,
    high: real,
    low: real,
    close: real,
    volume: real,
    past1: real,
    past3: real,
    past5: real,
    past10: real,
    past20: real,
    meanVolume5: real,
    meanVolume20: real,
    volumeLag5: real,
    rsi14: Cell,
    rsi7: Cell,
    hist: Cell,
    hist1: Cell,
    hist2: Cell,
    hist3: Cell,
    atr14: Cell,
    upper: Cell,
    middle: Cell,
    lower: Cell,
    ema9: Cell,
    ema21: Cell,
    ema50: Cell,
    time: int)

  function At(series: seq<Cell>, i: nat): Cell {
    if i < |series| then series[i] else NaN
  }

  /** The bar's own reads; warm-up rows are never built, so every lag is in range. */
  function ReadingAt(i: nat, b: Bars, pre: Precomputed): Reading
    requires MIN_BARS - 1 <= i < |b.closes|
  {
    Reading(
      b.opens[i], b.highs[i], b.lows[i], b.closes[i], b.volumes[i],
      b.closes[i - 1], b.closes[i - 3], b.closes[i - 5], b.closes[i - 10], b.closes[i - 20],
      Mean(b.volumes[i - 5..i]), Mean(b.volumes[i - 20..i]), b.volumes[i - 5],
      At(pre.rsi14, i), At(pre.rsi7, i),
      At(pre.macdHist, i), At(pre.macdHist, i - 1), At(pre.macdHist, i - 2), At(pre.macdHist, i - 3),
      At(pre.atr14, i), At(pre.bands.upper, i), At(pre.bands.middle, i), At(pre.bands.lower, i),
      At(pre.ema9, i), At(pre.ema21, i), At(pre.ema50, i), b.times[i])
  }

  function SafeDiv(num: real, denom: real, default: real): real {
    if denom == 0.0 then default else num / denom
  }

  function Or(c: Cell, default: real): real {
    if c.Num? then c.v else default
  }

  /** The histogram changes sign between two consecutive bars. */
  predicate Crosses(before: Cell, after: Cell) {
    before.Num? && after.Num? &&
    ((before.v <= 0.0 && 0.0 < after.v) || (before.v >= 0.0 && 0.0 > after.v))
  }

  function Hour(time: int): int { (time / 3600) % 24 }

  /** Monday is 0; the epoch was a Thursday. */
  function Weekday(time: int): int { (time / 86400 + 3) % 7 }

  /** Cyclical encoding of `value` out of `cycle`. */
  function Angle(lib: Libm, value: int, cycle: real): real
    requires cycle != 0.0
  {
    2.0 * lib.pi * value as real / cycle
  }

  /** The thirty features, in column order. */
  datatype FeatureRow = FeatureRow(
    returns1: real,
    returns3: real,
    returns5: real,
    returns10: real,
    returns20: real,
    logReturn1: real,
    highLowRatio: real,
    closePosition: real,
    volumeRatio5: real,
    volumeRatio20: real,
    volumeTrend: real,
    rsi14: real,
    rsi7: real,
    macdHist: real,
    macdSignalCross: real,
    atr14Pct: real,
    bbWidth: real,
    bbPctB: real,
    ema9Dist: real,
    ema21Dist: real,
    ema50Dist: real,
    emaCross921: real,
    trendStrength: real,
    candleBody: real,
    upperWick: real,
    lowerWick: real,
    hourSin: real,
    hourCos: real,
    dayOfWeekSin: real,
    dayOfWeekCos: real)

  function Assemble(lib: Libm, r: Reading): FeatureRow {
    var range := r.high - r.low;
    var up, mid, low := Or(r.upper, r.close), Or(r.middle, r.close), Or(r.lower, r.close);
    var e9, e21, e50 := Or(r.ema9, r.close), Or(r.ema21, r.close), Or(r.ema50, r.close);
    FeatureRow(
      SafeDiv(r.close - r.past1, r.past1, 0.0),
      SafeDiv(r.close - r.past3, r.past3, 0.0),
      SafeDiv(r.close - r.past5, r.past5, 0.0),
      SafeDiv(r.close - r.past10, r.past10, 0.0),
      SafeDiv(r.close - r.past20, r.past20, 0.0),
      if r.close > 0.0 && r.past1 > 0.0 then lib.log(SafeDiv(r.close, r.past1, 0.0)) else 0.0,
      SafeDiv(range, r.close, 0.0),
      SafeDiv(r.close - r.low, range, 0.5),
      SafeDiv(r.volume, r.meanVolume5, 1.0),
      SafeDiv(r.volume, r.meanVolume20, 1.0),
      SafeDiv(r.volume - r.volumeLag5, r.volumeLag5, 0.0),
      (Or(r.rsi14, 50.0) - 50.0) / 50.0,
      (Or(r.rsi7, 50.0) - 50.0) / 50.0,
      SafeDiv(Or(r.hist, 0.0), r.close, 0.0),
      if Crosses(r.hist1, r.hist) || Crosses(r.hist2, r.hist1) || Crosses(r.hist3, r.hist2) then 1.0 else 0.0,
      SafeDiv(Or(r.atr14, 0.0), r.close, 0.0),
      SafeDiv(up - low, mid, 0.0),
      SafeDiv(r.close - low, up - low, 0.5),
      SafeDiv(r.close - e9, r.close, 0.0),
      SafeDiv(r.close - e21, r.close, 0.0),
      SafeDiv(r.close - e50, r.close, 0.0),
      if e9 > e21 then 1.0 else -1.0,
      Abs(SafeDiv(r.close - e9, r.close, 0.0)),
      SafeDiv(Abs(r.close - r.open), range, 0.0),
      SafeDiv(r.high - Max(r.open, r.close), range, 0.0),
      SafeDiv(Min(r.open, r.close) - r.low, range, 0.0),
      lib.sin(Angle(lib, Hour(r.time), 24.0)),
      lib.cos(Angle(lib, Hour(r.time), 24.0)),
      lib.sin(Angle(lib, Weekday(r.time), 7.0)),
      lib.cos(Angle(lib, Weekday(r.time), 7.0)))
  }

  /** The row of bar i when the indicators are computed over all of `b`. */
  function Row(lib: Libm, b: Bars, i: nat): FeatureRow
    requires MIN_BARS - 1 <= i < |b.closes|
  {
    Assemble(lib, ReadingAt(i, b, Precompute(lib, b)))
  }

  // ------------------------------------------------------------------
  // Computing the indicator series
  // ------------------------------------------------------------------

  method PrecomputeAll(lib: Libm, b: Bars) returns (pre: Precomputed)
    ensures pre == Precompute(lib, b)
  {
    var rsi14 := RsiLoop(b.closes, 14);
    var rsi7 := RsiLoop(b.closes, 7);
    var line, signal, hist := MacdLoop(b.closes, 12, 26, 9);
    var atr := AtrLoop(b.highs, b.lows, b.closes, 14);
    var bands := BollingerLoop(lib.sqrt, b.closes, 20, 2.0);
    var ema9 := EmaLoop(b.closes, 9);
    var ema21 := EmaLoop(b.closes, 21);
    var ema50 := EmaLoop(b.closes, 50);
    pre := Precomputed(rsi14, rsi7, hist, atr, bands, ema9, ema21, ema50);
  }

  // ------------------------------------------------------------------
  // Prefix stability
  // ------------------------------------------------------------------

  lemma OscillatorsStable(lib: Libm, b: Bars, m: nat, i: nat)
    requires i < m <= |b.closes|
    ensures var short, full := Precompute(lib, Take(b, m)), Precompute(lib, b);
            && At(short.rsi14, i) == At(full.rsi14, i) && At(short.rsi7, i) == At(full.rsi7, i)
            && At(short.macdHist, i) == At(full.macdHist, i) && At(short.atr14, i) == At(full.atr14, i)
  {
    RsiStable(b.closes, m, 14, i);
    RsiStable(b.closes, m, 7, i);
    HistogramStable(b.closes, m, 12, 26, 9, i);
    AtrStable(b.highs, b.lows, b.closes, m, 14, i);
  }

  lemma LevelsStable(lib: Libm, b: Bars, m: nat, i: nat)
    requires i < m <= |b.closes|
    ensures var short, full := Precompute(lib, Take(b, m)), Precompute(lib, b);
            && At(short.bands.upper, i) == At(full.bands.upper, i)
            && At(short.bands.middle, i) == At(full.bands.middle, i)
            && At(short.bands.lower, i) == At(full.bands.lower, i) && At(short.ema9, i) == At(full.ema9, i)
            && At(short.ema21, i) == At(full.ema21, i) && At(short.ema50, i) == At(full.ema50, i)
  {
    BandsStable(lib.sqrt, b.closes, m, 20, 2.0, i);
    EmaStable(b.closes, m, 9, i);
    EmaStable(b.closes, m, 21, i);
    EmaStable(b.closes, m, 50, i);
  }

  /** A reading depends on the indicators at bars i - 3 to i and on the candles up to bar i. */
  lemma ReadingStable(b: Bars, m: nat, i: nat, short: Precomputed, full: Precomputed)
    requires MIN_BARS - 1 <= i < m <= |b.closes|
    requires At(short.rsi14, i) == At(full.rsi14, i) && At(short.rsi7, i) == At(full.rsi7, i)
    requires forall j :: i - 3 <= j <= i ==> At(short.macdHist, j) == At(full.macdHist, j)
    requires At(short.atr14, i) == At(full.atr14, i) && At(short.bands.upper, i) == At(full.bands.upper, i)
    requires At(short.bands.middle, i) == At(full.bands.middle, i)
    requires At(short.bands.lower, i) == At(full.bands.lower, i)
    requires At(short.ema9, i) == At(full.ema9, i) && At(short.ema21, i) == At(full.ema21, i)
    requires At(short.ema50, i) == At(full.ema50, i)
    ensures ReadingAt(i, Take(b, m), short) == ReadingAt(i, b, full)
  {
    assert b.volumes[..m][i - 5..i] == b.volumes[i - 5..i];
    assert b.volumes[..m][i - 20..i] == b.volumes[i - 20..i];
  }

  /** The row of bar i computed over the full history reads nothing after bar i. */
  lemma RowStable(lib: Libm, b: Bars, m: nat, i: nat)
    requires MIN_BARS - 1 <= i < m <= |b.closes|
    ensures Row(lib, Take(b, m), i) == Row(lib, b, i)
  {
    var short, full := Precompute(lib, Take(b, m)), Precompute(lib, b);
    forall j | i - 3 <= j <= i ensures At(short.macdHist, j) == At(full.macdHist, j) {
      OscillatorsStable(lib, b, m, j);
    }
    OscillatorsStable(lib, b, m, i);
    LevelsStable(lib, b, m, i);
    ReadingStable(b, m, i, short, full);
  }

  lemma ToBarsTake(cs: seq<Candle>, m: nat)
    requires m <= |cs|
    ensures ToBars(cs[..m]) == Take(ToBars(cs), m)
  {
  }

  /** Two histories that share their first m candles have the same rows for bars before m. */
  lemma RowsAgree(lib: Libm, c1: seq<Candle>, c2: seq<Candle>, m: nat, i: nat)
    requires MIN_BARS - 1 <= i < m <= |c1| && m <= |c2| && c1[..m] == c2[..m]
    ensures Row(lib, ToBars(c1), i) == Row(lib, ToBars(c2), i)
  {
    RowStable(lib, ToBars(c1), m, i);
    RowStable(lib, ToBars(c2), m, i);
    ToBarsTake(c1, m);
    ToBarsTake(c2, m);
  }
}
