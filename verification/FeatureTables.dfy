/**
 The two entry points of the feature engineer: the training matrix over a whole history and the vector
 of the live buffer, and how far they agree. The results about tables hold for any row function that
 is prefix-stable; the engineer's own row is one.
 */
module FeatureTables {
  import opened Basics
  import opened Market
  import opened Series
  import opened Features
  import CandleBuffer

  type RowFunction = (Bars, nat) -> FeatureRow

  const NO_ROW := FeatureRow(
    0.0, 0.0, 0.0, 0.0, 0.0, 0.0, 0.0, 0.0, 0.0, 0.0, 0.0, 0.0, 0.0, 0.0, 0.0,
    0.0, 0.0, 0.0, 0.0, 0.0, 0.0, 0.0, 0.0, 0.0, 0.0, 0.0, 0.0, 0.0, 0.0, 0.0)

  /** The feature row of a bar, as a function of the bars at hand; warm-up bars have none. */
  function Engineer(lib: Libm): RowFunction {
    (b: Bars, i: nat) => if MIN_BARS - 1 <= i < |b.closes| then Row(lib, b, i) else NO_ROW
  }

  /** The rows of bars 59 to k - 1. */
  function RowsBy(row: RowFunction, b: Bars, k: nat): (rows: seq<FeatureRow>)
    ensures |rows| == if k < MIN_BARS then 0 else k - (MIN_BARS - 1)
    decreases k
  {
    if k < MIN_BARS then [] else RowsBy(row, b, k - 1) + [row(b, k - 1)]
  }

  /** The row of the latest bar, once there are enough bars. */
  function LatestBy(row: RowFunction, b: Bars): Option<FeatureRow> {
    if |b.closes| < MIN_BARS then None else Some(row(b, |b.closes| - 1))
  }

  /** build_feature_matrix */
  function Matrix(lib: Libm, b: Bars): seq<FeatureRow> {
    RowsBy(Engineer(lib), b, |b.closes|)
  }

  /** build_features */
  function FeaturesOf(lib: Libm, buffer: seq<Candle>): Option<FeatureRow> {
    LatestBy(Engineer(lib), ToBars(buffer))
  }

  // ------------------------------------------------------------------
  // The two entry points
  // ------------------------------------------------------------------

  /** Rows assembled from these indicator series are the rows of `row`. */
  ghost predicate Serves(lib: Libm, b: Bars, pre: Precomputed, row: RowFunction) {
    forall i: nat {:trigger ReadingAt(i, b, pre)} | MIN_BARS - 1 <= i < |b.closes| ::
      Assemble(lib, ReadingAt(i, b, pre)) == row(b, i)
  }

  lemma EngineerServes(lib: Libm, b: Bars)
    ensures Serves(lib, b, Precompute(lib, b), Engineer(lib))
  {
  }

  /** _row_from_precomputed: one row, or nothing during warm-up. */
  method RowFromPrecomputed(lib: Libm, b: Bars, pre: Precomputed, i: nat, ghost row: RowFunction)
    returns (r: Option<FeatureRow>)
    requires Serves(lib, b, pre, row) && i < |b.closes|
    ensures r == if i + 1 < MIN_BARS then None else Some(row(b, i))
  {
    if i + 1 < MIN_BARS {
      return None;
    }
    r := Some(Assemble(lib, ReadingAt(i, b, pre)));
  }

  method FillRows(lib: Libm, b: Bars, pre: Precomputed, ghost row: RowFunction) returns (rows: seq<FeatureRow>)
    requires Serves(lib, b, pre, row) && |b.closes| >= MIN_BARS
    ensures rows == RowsBy(row, b, |b.closes|)
  {
    rows := [];
    for i := MIN_BARS - 1 to |b.closes|
      invariant rows == RowsBy(row, b, i)
    {
      var r := RowFromPrecomputed(lib, b, pre, i, row);
      rows := rows + [r.value];
    }
  }

  method BuildFeatureMatrix(lib: Libm, b: Bars) returns (rows: seq<FeatureRow>)
    ensures rows == Matrix(lib, b)
  {
    if |b.closes| < MIN_BARS {
      return [];
    }
    EngineerServes(lib, b);
    var pre := PrecomputeAll(lib, b);
    rows := FillRows(lib, b, pre, Engineer(lib));
  }

  method LatestRow(lib: Libm, b: Bars, pre: Precomputed, ghost row: RowFunction) returns (vector: Option<FeatureRow>)
    requires Serves(lib, b, pre, row) && |b.closes| >= MIN_BARS
    ensures vector == LatestBy(row, b)
  {
    vector := RowFromPrecomputed(lib, b, pre, |b.closes| - 1, row);
  }

  method BuildFeatures(lib: Libm, buffer: seq<Candle>) returns (vector: Option<FeatureRow>)
    ensures vector == FeaturesOf(lib, buffer)
  {
    if |buffer| < MIN_BARS {
      return None;
    }
    var b := ToBars(buffer);
    EngineerServes(lib, b);
    var pre := PrecomputeAll(lib, b);
    vector := LatestRow(lib, b, pre, Engineer(lib));
  }

  // ------------------------------------------------------------------
  // Train/serve agreement
  // ------------------------------------------------------------------

  /** The row of a bar does not depend on the bars after it. */
  ghost predicate PrefixStable(row: RowFunction) {
    forall b: Bars, m: nat, i: nat :: MIN_BARS - 1 <= i < m <= |b.closes| ==> row(Take(b, m), i) == row(b, i)
  }

  lemma EngineerIsStable(lib: Libm)
    ensures PrefixStable(Engineer(lib))
  {
    forall b: Bars, m: nat, i: nat | MIN_BARS - 1 <= i < m <= |b.closes|
      ensures Engineer(lib)(Take(b, m), i) == Engineer(lib)(b, i)
    {
      RowStable(lib, b, m, i);
    }
  }

  /** Row r of the matrix is bar r + 59. */
  lemma {:induction false} RowsAt(row: RowFunction, b: Bars, k: nat, i: nat)
    requires MIN_BARS - 1 <= i < k
    ensures RowsBy(row, b, k)[i - (MIN_BARS - 1)] == row(b, i)
    decreases k
  {
    if i < k - 1 {
      RowsAt(row, b, k - 1, i);
    }
  }

  lemma BufferHoldsAll(candles: seq<Candle>)
    requires Ascending(candles) && |candles| <= CandleBuffer.MAX_BUFFER_SIZE
    ensures CandleBuffer.BufferOf(candles, CandleBuffer.MAX_BUFFER_SIZE) == candles
  {
    CandleBuffer.GreedyKeepsAscending(candles);
    CandleBuffer.BufferIsLastOfGreedy(candles, CandleBuffer.MAX_BUFFER_SIZE);
  }

  lemma StableRowsAgree(row: RowFunction, candles: seq<Candle>, i: nat)
    requires PrefixStable(row) && Ascending(candles)
    requires i < |candles| && MIN_BARS <= i + 1 <= CandleBuffer.MAX_BUFFER_SIZE
    ensures LatestBy(row, ToBars(CandleBuffer.BufferOf(candles[..i + 1], CandleBuffer.MAX_BUFFER_SIZE)))
            == Some(RowsBy(row, ToBars(candles), |candles|)[i - (MIN_BARS - 1)])
  {
    var seen, full := candles[..i + 1], ToBars(candles);
    BufferHoldsAll(seen);
    ToBarsTake(candles, i + 1);
    assert row(Take(full, i + 1), i) == row(full, i);
    RowsAt(row, full, |candles|, i);
  }

  /**
   Train/serve agreement: for 60 <= i + 1 <= 500 bars in time order, row i - 59 of the training matrix
   over the whole history is the vector built from the live buffer after bar i.
   */
  lemma TrainServeAgreement(lib: Libm, candles: seq<Candle>, i: nat)
    requires Ascending(candles) && i < |candles| && MIN_BARS <= i + 1 <= CandleBuffer.MAX_BUFFER_SIZE
    ensures FeaturesOf(lib, CandleBuffer.BufferOf(candles[..i + 1], CandleBuffer.MAX_BUFFER_SIZE))
            == Some(Matrix(lib, ToBars(candles))[i - (MIN_BARS - 1)])
  {
    EngineerIsStable(lib);
    StableRowsAgree(Engineer(lib), candles, i);
  }

  // ------------------------------------------------------------------
  // Past the buffer's capacity the two differ
  // ------------------------------------------------------------------

  /** A flat series at 1 after one first close at 2. */
  function Spike(n: nat): seq<Candle> {
    seq(n, i requires 0 <= i < n => Candle("BTC/USDT", "1h", 3600 * i, 1.0, 2.0, 1.0, if i == 0 then 2.0 else 1.0, 1.0))
  }

  lemma {:induction false} SumOfOnes(v: seq<real>)
    requires forall i :: 0 <= i < |v| ==> v[i] == 1.0
    ensures Sum(v) == |v| as real
  {
    if v != [] {
      SumOfOnes(v[..|v| - 1]);
    }
  }

  lemma {:induction false} SumOfSpike(v: seq<real>)
    requires v != [] && v[0] == 2.0 && forall i :: 1 <= i < |v| ==> v[i] == 1.0
    ensures Sum(v) == |v| as real + 1.0
  {
    if |v| > 1 {
      SumOfSpike(v[..|v| - 1]);
    } else {
      assert v[..0] == [];
    }
  }

  lemma {:induction false} FlatEma(v: seq<real>, period: nat, i: nat)
    requires 1 <= period <= i + 1 <= |v| && forall j :: 0 <= j < |v| ==> v[j] == 1.0
    ensures EmaAt(v, period, i) == 1.0
    decreases i
  {
    if i == period - 1 {
      SumOfOnes(v[..period]);
    } else {
      FlatEma(v, period, i - 1);
    }
  }

  lemma PositiveProduct(x: real, y: real)
    requires x > 0.0 && y > 0.0
    ensures x * y > 0.0
  {
  }

  lemma StaysAbove(alpha: real, e: real)
    requires alpha < 1.0 && e > 1.0
    ensures Smooth(alpha, 1.0, e) > 1.0
  {
    var x, y := e - 1.0, 1.0 - alpha;
    PositiveProduct(x, y);
    assert Smooth(alpha, 1.0, e) == 1.0 + x * y;
  }

  lemma AlphaBelowOne(period: nat)
    requires period >= 2
    ensures Alpha(period) < 1.0
  {
    var p := period as real + 1.0;
    assert 2.0 / p * p == 2.0;
  }

  /** An exponential average never quite forgets. */
  lemma {:induction false} SpikeEma(v: seq<real>, period: nat, i: nat)
    requires 2 <= period <= i + 1 <= |v| && v[0] == 2.0 && forall j :: 1 <= j < |v| ==> v[j] == 1.0
    ensures EmaAt(v, period, i) > 1.0
    decreases i
  {
    if i == period - 1 {
      SumOfSpike(v[..period]);
      var n := period as real;
      assert Mean(v[..period]) == (n + 1.0) / n;
      assert (n + 1.0) / n == 1.0 + 1.0 / n && 1.0 / n > 0.0;
    } else {
      SpikeEma(v, period, i - 1);
      AlphaBelowOne(period);
      StaysAbove(Alpha(period), EmaAt(v, period, i - 1));
    }
  }

  /** The trend column compares the last close with its EMA(50). */
  lemma TrendColumn(lib: Libm, b: Bars, i: nat)
    requires MIN_BARS - 1 <= i < |b.closes| && b.closes[i] == 1.0
    ensures Row(lib, b, i).ema50Dist == 1.0 - EmaAt(b.closes, 50, i)
  {
    assert At(Precompute(lib, b).ema50, i) == Num(EmaAt(b.closes, 50, i));
  }

  lemma SpikeBuffer(candles: seq<Candle>) returns (buffer: seq<Candle>)
    requires |candles| > CandleBuffer.MAX_BUFFER_SIZE && Ascending(candles)
    requires forall k :: 1 <= k < |candles| ==> candles[k].close == 1.0
    ensures buffer == CandleBuffer.BufferOf(candles, CandleBuffer.MAX_BUFFER_SIZE)
    ensures |buffer| == CandleBuffer.MAX_BUFFER_SIZE && forall k :: 0 <= k < |buffer| ==> buffer[k].close == 1.0
  {
    CandleBuffer.GreedyKeepsAscending(candles);
    CandleBuffer.BufferIsLastOfGreedy(candles, CandleBuffer.MAX_BUFFER_SIZE);
    buffer := LastN(candles, CandleBuffer.MAX_BUFFER_SIZE);
  }

  /** The row remembers a first close at 2 and says so in its EMA(50) distance. */
  ghost predicate RemembersSpike(row: RowFunction) {
    && (forall b: Bars, i: nat :: MIN_BARS - 1 <= i < |b.closes| && IsFlat(b.closes) ==> row(b, i).ema50Dist == 0.0)
    && (forall b: Bars, i: nat :: MIN_BARS - 1 <= i < |b.closes| && IsSpike(b.closes) ==> row(b, i).ema50Dist < 0.0)
  }

  predicate IsFlat(v: seq<real>) {
    forall k :: 0 <= k < |v| ==> v[k] == 1.0
  }

  predicate IsSpike(v: seq<real>) {
    v != [] && v[0] == 2.0 && forall k :: 1 <= k < |v| ==> v[k] == 1.0
  }

  lemma EngineerRemembers(lib: Libm)
    ensures RemembersSpike(Engineer(lib))
  {
    forall b: Bars, i: nat | MIN_BARS - 1 <= i < |b.closes| && (IsFlat(b.closes) || IsSpike(b.closes))
      ensures if IsFlat(b.closes) then Engineer(lib)(b, i).ema50Dist == 0.0 else Engineer(lib)(b, i).ema50Dist < 0.0
    {
      TrendColumn(lib, b, i);
      if IsFlat(b.closes) {
        FlatEma(b.closes, 50, i);
      } else {
        SpikeEma(b.closes, 50, i);
      }
    }
  }

  lemma ForgottenClose(row: RowFunction, candles: seq<Candle>, i: nat)
    requires RemembersSpike(row) && i >= CandleBuffer.MAX_BUFFER_SIZE && |candles| == i + 1 && Ascending(candles)
    requires IsSpike(ToBars(candles).closes)
    ensures LatestBy(row, ToBars(CandleBuffer.BufferOf(candles, CandleBuffer.MAX_BUFFER_SIZE)))
            != Some(RowsBy(row, ToBars(candles), |candles|)[i - (MIN_BARS - 1)])
  {
    assert forall k :: 1 <= k < |candles| ==> candles[k].close == ToBars(candles).closes[k];
    var buffer := SpikeBuffer(candles);
    assert IsFlat(ToBars(buffer).closes);
    RowsAt(row, ToBars(candles), |candles|, i);
  }

  /**
   The bound of 500 bars is sharp: with every longer history there are candles for which the vector
   served differs from the training row of the same bar, because the buffer has forgotten the first one.
   */
  lemma SkewBeyondCapacity(lib: Libm, i: nat)
    returns (candles: seq<Candle>)
    requires i >= CandleBuffer.MAX_BUFFER_SIZE
    ensures |candles| == i + 1 && Ascending(candles)
    ensures FeaturesOf(lib, CandleBuffer.BufferOf(candles, CandleBuffer.MAX_BUFFER_SIZE))
            != Some(Matrix(lib, ToBars(candles))[i - (MIN_BARS - 1)])
  {
    candles := Spike(i + 1);
    EngineerRemembers(lib);
    ForgottenClose(Engineer(lib), candles, i);
  }
}
