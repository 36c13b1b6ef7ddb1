/** What the thirty columns of a feature row say about the candles. */
module FeatureColumns {
  import opened Basics
  import opened Series
  import opened Features
  import FeatureIndicators
  import IndicatorMeanings

  // ------------------------------------------------------------------
  // Safe division
  // ------------------------------------------------------------------

  /** `q` is the ratio of `part` to `whole`, or the default where there is no whole. */
  predicate IsRatio(q: real, part: real, whole: real, default: real) {
    if whole == 0.0 then q == default else Times(q, whole) == part
  }

  lemma SafeRatio(part: real, whole: real, default: real)
    ensures IsRatio(SafeDiv(part, whole, default), part, whole, default)
  {
    if whole != 0.0 {
      var q := part / whole;
      assert q * whole == part;
    }
  }

  /** `q` takes `from` to `to` proportionally: to == from * (1 + q). */
  predicate IsReturn(q: real, from: real, to: real) {
    if from == 0.0 then q == 0.0 else to == from + Times(q, from)
  }

  lemma SafeReturn(from: real, to: real)
    ensures IsReturn(SafeDiv(to - from, from, 0.0), from, to)
  {
    SafeRatio(to - from, from, 0.0);
  }

  // ------------------------------------------------------------------
  // Prices and volumes
  // ------------------------------------------------------------------

  /** The returns over 1, 3, 5, 10 and 20 bars, against the closes so many bars back. */
  predicate Returns(row: FeatureRow, close: real, past1: real, past3: real, past5: real, past10: real, past20: real) {
    && IsReturn(row.returns1, past1, close) && IsReturn(row.returns3, past3, close)
    && IsReturn(row.returns5, past5, close) && IsReturn(row.returns10, past10, close)
    && IsReturn(row.returns20, past20, close)
  }

  lemma ReturnsOf(row: FeatureRow, close: real, past1: real, past3: real, past5: real, past10: real, past20: real)
    requires row.returns1 == SafeDiv(close - past1, past1, 0.0) && row.returns3 == SafeDiv(close - past3, past3, 0.0)
    requires row.returns5 == SafeDiv(close - past5, past5, 0.0)
    requires row.returns10 == SafeDiv(close - past10, past10, 0.0)
    requires row.returns20 == SafeDiv(close - past20, past20, 0.0)
    ensures Returns(row, close, past1, past3, past5, past10, past20)
  {
    SafeReturn(past1, close);
    SafeReturn(past3, close);
    SafeReturn(past5, close);
    SafeReturn(past10, close);
    SafeReturn(past20, close);
  }

  lemma AssembledReturns(lib: Libm, r: Reading)
    ensures Returns(Assemble(lib, r), r.close, r.past1, r.past3, r.past5, r.past10, r.past20)
  {
    ReturnsOf(Assemble(lib, r), r.close, r.past1, r.past3, r.past5, r.past10, r.past20);
  }

  /** The returns over 1, 3, 5, 10 and 20 bars. */
  lemma ReturnColumns(lib: Libm, b: Bars, i: nat)
    requires MIN_BARS - 1 <= i < |b.closes|
    ensures var c := b.closes;
            Returns(Row(lib, b, i), c[i], c[i - 1], c[i - 3], c[i - 5], c[i - 10], c[i - 20])
  {
    AssembledReturns(lib, ReadingAt(i, b, Precompute(lib, b)));
  }

  /** The logarithm of the last price ratio, where both prices are positive. */
  lemma LogReturnColumn(lib: Libm, b: Bars, i: nat) returns (ratio: real)
    requires MIN_BARS - 1 <= i < |b.closes|
    ensures IsRatio(ratio, b.closes[i], b.closes[i - 1], 0.0)
    ensures Row(lib, b, i).logReturn1 == if b.closes[i] > 0.0 && b.closes[i - 1] > 0.0 then lib.log(ratio) else 0.0
  {
    ratio := SafeDiv(b.closes[i], b.closes[i - 1], 0.0);
    SafeRatio(b.closes[i], b.closes[i - 1], 0.0);
  }

  lemma SumOneMore(v: seq<real>, k: nat)
    requires k < |v|
    ensures Sum(v[..k + 1]) == Sum(v[..k]) + v[k]
  {
    assert v[..k + 1][..k] == v[..k];
  }

  lemma SumOfFive(v: seq<real>)
    requires |v| == 5
    ensures Sum(v) == v[0] + v[1] + v[2] + v[3] + v[4]
  {
    SumOneMore(v, 0);
    SumOneMore(v, 1);
    SumOneMore(v, 2);
    SumOneMore(v, 3);
  }

  lemma ScaledRatio(q: real, x: real, m: real, n: real, sum: real)
    requires n > 0.0 && Times(m, n) == sum && IsRatio(q, x, m, 1.0)
    ensures IsRatio(q, Times(n, x), sum, 1.0)
  {
    if m != 0.0 {
      NonzeroProduct(m, n);
      assert q * (m * n) == q * m * n;
    }
  }

  lemma NonzeroProduct(m: real, n: real)
    requires n > 0.0 && m != 0.0
    ensures Times(m, n) != 0.0
  {
    if m > 0.0 {
      assert m * n > 0.0;
    } else {
      assert (-m) * n > 0.0;
    }
  }

  lemma RatioToSum(q: real, x: real, v: seq<real>, n: real)
    requires v != [] && n == |v| as real && IsRatio(q, x, Mean(v), 1.0)
    ensures IsRatio(q, Times(n, x), Sum(v), 1.0)
  {
    IndicatorMeanings.MeanTimes(v);
    ScaledRatio(q, x, Mean(v), n, Sum(v));
  }

  /** The volume against two means and an earlier volume. */
  predicate Volumes(row: FeatureRow, volume: real, mean5: real, mean20: real, lag5: real) {
    && IsRatio(row.volumeRatio5, volume, mean5, 1.0) && IsRatio(row.volumeRatio20, volume, mean20, 1.0)
    && IsReturn(row.volumeTrend, lag5, volume)
  }

  lemma VolumesOf(row: FeatureRow, volume: real, mean5: real, mean20: real, lag5: real)
    requires row.volumeRatio5 == SafeDiv(volume, mean5, 1.0) && row.volumeRatio20 == SafeDiv(volume, mean20, 1.0)
    requires row.volumeTrend == SafeDiv(volume - lag5, lag5, 0.0)
    ensures Volumes(row, volume, mean5, mean20, lag5)
  {
    SafeRatio(volume, mean5, 1.0);
    SafeRatio(volume, mean20, 1.0);
    SafeReturn(lag5, volume);
  }

  lemma AssembledVolumes(lib: Libm, r: Reading)
    ensures Volumes(Assemble(lib, r), r.volume, r.meanVolume5, r.meanVolume20, r.volumeLag5)
  {
    VolumesOf(Assemble(lib, r), r.volume, r.meanVolume5, r.meanVolume20, r.volumeLag5);
  }

  lemma VolumesToSums(row: FeatureRow, volume: real, five: seq<real>, twenty: seq<real>, lag5: real)
    requires |five| == 5 && |twenty| == 20 && Volumes(row, volume, Mean(five), Mean(twenty), lag5)
    ensures IsRatio(row.volumeRatio5, Times(5.0, volume), five[0] + five[1] + five[2] + five[3] + five[4], 1.0)
    ensures IsRatio(row.volumeRatio20, Times(20.0, volume), Sum(twenty), 1.0)
    ensures IsReturn(row.volumeTrend, lag5, volume)
  {
    RatioToSum(row.volumeRatio5, volume, five, 5.0);
    RatioToSum(row.volumeRatio20, volume, twenty, 20.0);
    SumOfFive(five);
  }

  /** The volume against the sums of the 5 and of the 20 bars before, and its change over 5 bars. */
  lemma VolumeColumns(lib: Libm, b: Bars, i: nat)
    returns (row: FeatureRow, volume: real, five: seq<real>, twenty: seq<real>)
    requires MIN_BARS - 1 <= i < |b.closes|
    ensures row == Row(lib, b, i) && volume == b.volumes[i]
    ensures five == b.volumes[i - 5..i] && twenty == b.volumes[i - 20..i]
    ensures IsRatio(row.volumeRatio5, Times(5.0, volume), five[0] + five[1] + five[2] + five[3] + five[4], 1.0)
    ensures IsRatio(row.volumeRatio20, Times(20.0, volume), Sum(twenty), 1.0)
    ensures IsReturn(row.volumeTrend, five[0], volume)
  {
    volume, five, twenty := b.volumes[i], b.volumes[i - 5..i], b.volumes[i - 20..i];
    row := RowVolumes(lib, b, i, volume, five, twenty);
    VolumesToSums(row, volume, five, twenty, five[0]);
  }

  lemma RowVolumes(lib: Libm, b: Bars, i: nat, volume: real, five: seq<real>, twenty: seq<real>)
    returns (row: FeatureRow)
    requires MIN_BARS - 1 <= i < |b.closes| && volume == b.volumes[i]
    requires five == b.volumes[i - 5..i] && twenty == b.volumes[i - 20..i]
    ensures row == Row(lib, b, i) && Volumes(row, volume, Mean(five), Mean(twenty), five[0])
  {
    row := Row(lib, b, i);
    AssembledVolumes(lib, ReadingAt(i, b, Precompute(lib, b)));
  }

  // ------------------------------------------------------------------
  // The candle's shape
  // ------------------------------------------------------------------

  /** The range against the close, the place of the close in the range, and the three parts of the range. */
  predicate Shape(row: FeatureRow, open: real, high: real, low: real, close: real) {
    && IsRatio(row.highLowRatio, high - low, close, 0.0)
    && IsRatio(row.closePosition, close - low, high - low, 0.5)
    && IsRatio(row.candleBody, Max(open, close) - Min(open, close), high - low, 0.0)
    && IsRatio(row.upperWick, high - Max(open, close), high - low, 0.0)
    && IsRatio(row.lowerWick, Min(open, close) - low, high - low, 0.0)
  }

  lemma ShapeOf(row: FeatureRow, open: real, high: real, low: real, close: real)
    requires row.highLowRatio == SafeDiv(high - low, close, 0.0)
    requires row.closePosition == SafeDiv(close - low, high - low, 0.5)
    requires row.candleBody == SafeDiv(Abs(close - open), high - low, 0.0)
    requires row.upperWick == SafeDiv(high - Max(open, close), high - low, 0.0)
    requires row.lowerWick == SafeDiv(Min(open, close) - low, high - low, 0.0)
    ensures Shape(row, open, high, low, close)
  {
    SafeRatio(high - low, close, 0.0);
    SafeRatio(close - low, high - low, 0.5);
    SafeRatio(Abs(close - open), high - low, 0.0);
    SafeRatio(high - Max(open, close), high - low, 0.0);
    SafeRatio(Min(open, close) - low, high - low, 0.0);
  }

  lemma AssembledShape(lib: Libm, r: Reading)
    ensures Shape(Assemble(lib, r), r.open, r.high, r.low, r.close)
  {
    ShapeOf(Assemble(lib, r), r.open, r.high, r.low, r.close);
  }

  /** Body and wicks are the parts of the candle's range: they add up to all of it. */
  lemma CandleColumns(lib: Libm, b: Bars, i: nat)
    requires MIN_BARS - 1 <= i < |b.closes|
    ensures var row := Row(lib, b, i);
            && Shape(row, b.opens[i], b.highs[i], b.lows[i], b.closes[i])
            && (b.highs[i] != b.lows[i] ==> row.candleBody + row.upperWick + row.lowerWick == 1.0)
  {
    AssembledShape(lib, ReadingAt(i, b, Precompute(lib, b)));
    PartsAddUp(Row(lib, b, i), b.opens[i], b.highs[i], b.lows[i], b.closes[i]);
  }

  lemma PartsAddUp(row: FeatureRow, open: real, high: real, low: real, close: real)
    requires Shape(row, open, high, low, close)
    ensures high != low ==> row.candleBody + row.upperWick + row.lowerWick == 1.0
  {
    if high != low {
      PartsOfWhole(row.candleBody, row.upperWick, row.lowerWick, high - low);
    }
  }

  lemma PartsOfWhole(x: real, y: real, z: real, whole: real)
    requires whole != 0.0 && Times(x, whole) + Times(y, whole) + Times(z, whole) == whole
    ensures x + y + z == 1.0
  {
    assert (x + y + z - 1.0) * whole == 0.0;
  }

  // ------------------------------------------------------------------
  // Momentum
  // ------------------------------------------------------------------

  lemma AssembledRsi(lib: Libm, r: Reading)
    requires r.rsi14.Num? && r.rsi7.Num?
    ensures 50.0 + 50.0 * Assemble(lib, r).rsi14 == r.rsi14.v && 50.0 + 50.0 * Assemble(lib, r).rsi7 == r.rsi7.v
  {
  }

  lemma RsiOfReading(lib: Libm, b: Bars, i: nat)
    requires MIN_BARS - 1 <= i < |b.closes|
    ensures var r := ReadingAt(i, b, Precompute(lib, b));
            && r.rsi14 == Num(FeatureIndicators.RsiAt(b.closes, 14, i))
            && r.rsi7 == Num(FeatureIndicators.RsiAt(b.closes, 7, i))
  {
  }

  lemma RsiIsBounded(closes: seq<real>, period: nat, i: nat, column: real)
    requires 1 <= period <= i < |closes| && 50.0 + 50.0 * column == FeatureIndicators.RsiAt(closes, period, i)
    ensures -1.0 <= column <= 1.0
  {
    IndicatorMeanings.RsiIsShareOfGains(closes, period, i);
  }

  /** The two RSI columns rescale 0 to 100 to -1 to 1. */
  lemma RsiColumns(lib: Libm, b: Bars, i: nat)
    requires MIN_BARS - 1 <= i < |b.closes|
    ensures var row := Row(lib, b, i);
            && 50.0 + 50.0 * row.rsi14 == FeatureIndicators.RsiAt(b.closes, 14, i) && -1.0 <= row.rsi14 <= 1.0
            && 50.0 + 50.0 * row.rsi7 == FeatureIndicators.RsiAt(b.closes, 7, i) && -1.0 <= row.rsi7 <= 1.0
  {
    RsiOfReading(lib, b, i);
    AssembledRsi(lib, ReadingAt(i, b, Precompute(lib, b)));
    RsiIsBounded(b.closes, 14, i, Row(lib, b, i).rsi14);
    RsiIsBounded(b.closes, 7, i, Row(lib, b, i).rsi7);
  }

  /** From one bar to the next the value leaves zero or reaches the other side of it. */
  predicate ChangesSign(before: real, after: real) {
    after != 0.0 && (before == 0.0 || (before < 0.0 <==> after > 0.0))
  }

  /** The histogram against the close, and whether it changed sign between the last four bars. */
  predicate Momentum(row: FeatureRow, close: real, h: real, h1: real, h2: real, h3: real) {
    && IsRatio(row.macdHist, h, close, 0.0)
    && row.macdSignalCross == if ChangesSign(h1, h) || ChangesSign(h2, h1) || ChangesSign(h3, h2) then 1.0 else 0.0
  }

  lemma MomentumOf(row: FeatureRow, close: real, h: real, h1: real, h2: real, h3: real)
    requires row.macdHist == SafeDiv(h, close, 0.0)
    requires row.macdSignalCross
             == if Crosses(Num(h1), Num(h)) || Crosses(Num(h2), Num(h1)) || Crosses(Num(h3), Num(h2)) then 1.0 else 0.0
    ensures Momentum(row, close, h, h1, h2, h3)
  {
    SafeRatio(h, close, 0.0);
  }

  lemma AssembledMomentum(lib: Libm, r: Reading)
    requires r.hist.Num? && r.hist1.Num? && r.hist2.Num? && r.hist3.Num?
    ensures Momentum(Assemble(lib, r), r.close, r.hist.v, r.hist1.v, r.hist2.v, r.hist3.v)
  {
    MomentumOf(Assemble(lib, r), r.close, r.hist.v, r.hist1.v, r.hist2.v, r.hist3.v);
  }

  /** The histogram of one of the last bars, which always has a number. */
  function HistogramAt(closes: seq<real>, i: nat): real
    requires 33 <= i < |closes|
  {
    var cell := FeatureIndicators.Histogram(closes, 12, 26, 9)[i];
    if cell.Num? then cell.v else 0.0
  }

  lemma HistogramCell(lib: Libm, b: Bars, i: nat)
    requires 33 <= i < |b.closes|
    ensures FeatureIndicators.Histogram(b.closes, 12, 26, 9)[i] == Num(HistogramAt(b.closes, i))
    ensures At(Precompute(lib, b).macdHist, i) == Num(HistogramAt(b.closes, i))
  {
    IndicatorMeanings.HistogramStarts(b.closes, 12, 26, 9, i);
  }

  lemma ReadsFourBars(b: Bars, i: nat, pre: Precomputed, h: real, h1: real, h2: real, h3: real)
    requires MIN_BARS - 1 <= i < |b.closes|
    requires At(pre.macdHist, i) == Num(h) && At(pre.macdHist, i - 1) == Num(h1)
    requires At(pre.macdHist, i - 2) == Num(h2) && At(pre.macdHist, i - 3) == Num(h3)
    ensures var r := ReadingAt(i, b, pre);
            r.hist == Num(h) && r.hist1 == Num(h1) && r.hist2 == Num(h2) && r.hist3 == Num(h3)
  {
  }

  lemma HistogramsOfReading(lib: Libm, b: Bars, i: nat)
    requires MIN_BARS - 1 <= i < |b.closes|
    ensures var r := ReadingAt(i, b, Precompute(lib, b));
            && r.hist == Num(HistogramAt(b.closes, i)) && r.hist1 == Num(HistogramAt(b.closes, i - 1))
            && r.hist2 == Num(HistogramAt(b.closes, i - 2)) && r.hist3 == Num(HistogramAt(b.closes, i - 3))
  {
    HistogramCell(lib, b, i);
    HistogramCell(lib, b, i - 1);
    HistogramCell(lib, b, i - 2);
    HistogramCell(lib, b, i - 3);
    ReadsFourBars(b, i, Precompute(lib, b), HistogramAt(b.closes, i), HistogramAt(b.closes, i - 1),
      HistogramAt(b.closes, i - 2), HistogramAt(b.closes, i - 3));
  }

  lemma MacdColumns(lib: Libm, b: Bars, i: nat)
    requires MIN_BARS - 1 <= i < |b.closes|
    ensures var c := b.closes;
            Momentum(Row(lib, b, i), c[i],
              HistogramAt(c, i), HistogramAt(c, i - 1), HistogramAt(c, i - 2), HistogramAt(c, i - 3))
  {
    HistogramsOfReading(lib, b, i);
    AssembledMomentum(lib, ReadingAt(i, b, Precompute(lib, b)));
  }

  // ------------------------------------------------------------------
  // Volatility
  // ------------------------------------------------------------------

  /** The ATR against the close, the width of the bands against their middle, and the place of the close in them. */
  predicate Volatility(row: FeatureRow, close: real, atr: real, mean: real, deviation: real) {
    && IsRatio(row.atr14Pct, atr, close, 0.0)
    && IsRatio(row.bbWidth, 4.0 * deviation, mean, 0.0)
    && IsRatio(row.bbPctB, close - (mean - 2.0 * deviation), 4.0 * deviation, 0.5)
  }

  lemma VolatilityOf(row: FeatureRow, close: real, atr: real, mean: real, deviation: real, upper: real, lower: real)
    requires upper == mean + Times(2.0, deviation) && lower == mean - Times(2.0, deviation)
    requires row.atr14Pct == SafeDiv(atr, close, 0.0) && row.bbWidth == SafeDiv(upper - lower, mean, 0.0)
    requires row.bbPctB == SafeDiv(close - lower, upper - lower, 0.5)
    ensures Volatility(row, close, atr, mean, deviation)
  {
    SafeRatio(atr, close, 0.0);
    SafeRatio(upper - lower, mean, 0.0);
    SafeRatio(close - lower, upper - lower, 0.5);
  }

  lemma AssembledVolatility(lib: Libm, r: Reading, deviation: real)
    requires r.atr14.Num? && r.upper.Num? && r.middle.Num? && r.lower.Num?
    requires r.upper.v == r.middle.v + Times(2.0, deviation) && r.lower.v == r.middle.v - Times(2.0, deviation)
    ensures Volatility(Assemble(lib, r), r.close, r.atr14.v, r.middle.v, deviation)
  {
    VolatilityOf(Assemble(lib, r), r.close, r.atr14.v, r.middle.v, deviation, r.upper.v, r.lower.v);
  }

  lemma BandsOfReading(lib: Libm, b: Bars, i: nat) returns (mean: real, deviation: real)
    requires MIN_BARS - 1 <= i < |b.closes|
    ensures var window := b.closes[i - 19..i + 1];
            mean == Mean(window) && deviation == lib.sqrt(Mean(IndicatorMeanings.Squares(window)) - Times(mean, mean))
    ensures var r := ReadingAt(i, b, Precompute(lib, b));
            && r.atr14 == FeatureIndicators.Atr(b.highs, b.lows, b.closes, 14)[i] && r.atr14.Num?
            && r.upper == Num(mean + Times(2.0, deviation)) && r.middle == Num(mean)
            && r.lower == Num(mean - Times(2.0, deviation))
  {
    var window;
    IndicatorMeanings.AtrNonnegative(b.highs, b.lows, b.closes, 14, i);
    window, deviation := IndicatorMeanings.BandsAreSymmetric(lib.sqrt, b.closes, 20, 2.0, i);
    assert window == b.closes[i - 19..i + 1];
    mean := Mean(window);
  }

  lemma VolatilityColumns(lib: Libm, b: Bars, i: nat)
    returns (atr: real, mean: real, deviation: real)
    requires MIN_BARS - 1 <= i < |b.closes|
    ensures FeatureIndicators.Atr(b.highs, b.lows, b.closes, 14)[i] == Num(atr)
    ensures var window := b.closes[i - 19..i + 1];
            mean == Mean(window) && deviation == lib.sqrt(Mean(IndicatorMeanings.Squares(window)) - Times(mean, mean))
    ensures Volatility(Row(lib, b, i), b.closes[i], atr, mean, deviation)
  {
    mean, deviation := BandsOfReading(lib, b, i);
    var r := ReadingAt(i, b, Precompute(lib, b));
    atr := r.atr14.v;
    AssembledVolatility(lib, r, deviation);
  }

  // ------------------------------------------------------------------
  // Trend
  // ------------------------------------------------------------------

  /** The distance of the close from each EMA, which of the two fast ones is above, and the size of the first. */
  predicate Trend(row: FeatureRow, close: real, ema9: real, ema21: real, ema50: real) {
    && IsRatio(row.ema9Dist, close - ema9, close, 0.0)
    && IsRatio(row.ema21Dist, close - ema21, close, 0.0)
    && IsRatio(row.ema50Dist, close - ema50, close, 0.0)
    && row.emaCross921 == (if ema9 > ema21 then 1.0 else -1.0)
    && row.trendStrength == Max(row.ema9Dist, -row.ema9Dist)
  }

  lemma TrendOf(row: FeatureRow, close: real, ema9: real, ema21: real, ema50: real)
    requires row.ema9Dist == SafeDiv(close - ema9, close, 0.0) && row.ema21Dist == SafeDiv(close - ema21, close, 0.0)
    requires row.ema50Dist == SafeDiv(close - ema50, close, 0.0) && row.trendStrength == Abs(row.ema9Dist)
    requires row.emaCross921 == if ema9 > ema21 then 1.0 else -1.0
    ensures Trend(row, close, ema9, ema21, ema50)
  {
    SafeRatio(close - ema9, close, 0.0);
    SafeRatio(close - ema21, close, 0.0);
    SafeRatio(close - ema50, close, 0.0);
  }

  lemma AssembledTrend(lib: Libm, r: Reading)
    requires r.ema9.Num? && r.ema21.Num? && r.ema50.Num?
    ensures Trend(Assemble(lib, r), r.close, r.ema9.v, r.ema21.v, r.ema50.v)
  {
    TrendOf(Assemble(lib, r), r.close, r.ema9.v, r.ema21.v, r.ema50.v);
  }

  lemma EmaCells(lib: Libm, b: Bars, i: nat)
    requires MIN_BARS - 1 <= i < |b.closes|
    ensures var r := ReadingAt(i, b, Precompute(lib, b));
            && r.ema9 == Num(EmaAt(b.closes, 9, i)) && r.ema21 == Num(EmaAt(b.closes, 21, i))
            && r.ema50 == Num(EmaAt(b.closes, 50, i))
  {
  }

  lemma TrendColumns(lib: Libm, b: Bars, i: nat)
    requires MIN_BARS - 1 <= i < |b.closes|
    ensures var c := b.closes;
            Trend(Row(lib, b, i), c[i], EmaAt(c, 9, i), EmaAt(c, 21, i), EmaAt(c, 50, i))
  {
    EmaCells(lib, b, i);
    AssembledTrend(lib, ReadingAt(i, b, Precompute(lib, b)));
  }

  // ------------------------------------------------------------------
  // Time
  // ------------------------------------------------------------------

  /** The bar's hour of the day and day of the week, Monday first, as angles. */
  lemma TimeColumns(lib: Libm, b: Bars, i: nat) returns (hour: real, day: real)
    requires MIN_BARS - 1 <= i < |b.closes|
    ensures hour * 24.0 == 2.0 * lib.pi * Hour(b.times[i]) as real
    ensures day * 7.0 == 2.0 * lib.pi * Weekday(b.times[i]) as real
    ensures var row := Row(lib, b, i);
            && row.hourSin == lib.sin(hour) && row.hourCos == lib.cos(hour)
            && row.dayOfWeekSin == lib.sin(day) && row.dayOfWeekCos == lib.cos(day)
  {
    hour, day := Angle(lib, Hour(b.times[i]), 24.0), Angle(lib, Weekday(b.times[i]), 7.0);
  }

  /** The epoch's first Monday began after four days; hours and days are counted from it. */
  lemma CalendarOf(week: int, day: int, hour: int, second: int)
    requires 0 <= day < 7 && 0 <= hour < 24 && 0 <= second < 3600
    ensures var time := 86400 * (4 + 7 * week + day) + 3600 * hour + second;
            Hour(time) == hour && Weekday(time) == day
  {
    var time := 86400 * (4 + 7 * week + day) + 3600 * hour + second;
    assert time / 3600 == 24 * (4 + 7 * week + day) + hour;
    assert time / 86400 == 4 + 7 * week + day;
  }
}
