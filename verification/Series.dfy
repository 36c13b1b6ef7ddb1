/** Number series with NaN, and the two recurrences every indicator is built from. */
module Series {
  import opened Basics

  /** A float64 array element: a number or NaN. */
  datatype Cell = NaN | Num(v: real)

  function Sum(v: seq<real>): real {
    if v == [] then 0.0 else Sum(v[..|v| - 1]) + v[|v| - 1]
  }

  function Mean(v: seq<real>): real
    requires v != []
  {
    Sum(v) / |v| as real
  }

  function Lift(v: seq<real>): seq<Cell> {
    seq(|v|, i requires 0 <= i < |v| => Num(v[i]))
  }

  function Subtract(a: Cell, b: Cell): Cell {
    if a.Num? && b.Num? then Num(a.v - b.v) else NaN
  }

  function Minus(a: seq<Cell>, b: seq<Cell>): seq<Cell>
    requires |a| == |b|
  {
    seq(|a|, i requires 0 <= i < |a| => Subtract(a[i], b[i]))
  }

  // ------------------------------------------------------------------
  // Exponential smoothing
  // ------------------------------------------------------------------

  function Alpha(period: nat): real {
    2.0 / (period as real + 1.0)
  }

  function Smooth(alpha: real, x: real, prev: real): real {
    Times(x, alpha) + Times(prev, 1.0 - alpha)
  }

  function SmoothCell(alpha: real, x: Cell, prev: Cell): Cell {
    if x.Num? && prev.Num? then Num(Smooth(alpha, x.v, prev.v)) else NaN
  }

  /** EMA of NaN-free data, seeded with the mean of the first `period` values. */
  function EmaAt(v: seq<real>, period: nat, i: nat): real
    requires 1 <= period <= i + 1 <= |v|
    decreases i
  {
    if i == period - 1 then Mean(v[..period])
    else Smooth(Alpha(period), v[i], EmaAt(v, period, i - 1))
  }

  function Ema(v: seq<real>, period: nat): seq<Cell>
    requires period >= 1
  {
    seq(|v|, i requires 0 <= i < |v| => if i < period - 1 then NaN else Num(EmaAt(v, period, i)))
  }

  /** Indices below n that hold numbers, in order. */
  function ValidIndices(data: seq<Cell>, n: nat): (valid: seq<nat>)
    requires n <= |data|
    ensures forall j :: 0 <= j < |valid| ==> valid[j] < n && data[valid[j]].Num?
    ensures forall i, j :: 0 <= i < j < |valid| ==> valid[i] < valid[j]
  {
    if n == 0 then []
    else if data[n - 1].Num? then ValidIndices(data, n - 1) + [n - 1]
    else ValidIndices(data, n - 1)
  }

  /** Smoothing of data that may hold NaN, from a seed at `start`: a NaN gives NaN and stays NaN. */
  function SmoothedAt(data: seq<Cell>, alpha: real, start: nat, seed: real, i: nat): Cell
    requires start <= i < |data|
    decreases i
  {
    if i == start then Num(seed)
    else if data[i].NaN? then NaN
    else SmoothCell(alpha, data[i], SmoothedAt(data, alpha, start, seed, i - 1))
  }

  function Smoothed(data: seq<Cell>, alpha: real, start: nat, seed: real): seq<Cell>
    requires start < |data|
  {
    seq(|data|, i requires 0 <= i < |data| => if i < start then NaN else SmoothedAt(data, alpha, start, seed, i))
  }

  function AllNaN(n: nat): seq<Cell> {
    seq(n, _ => NaN)
  }

  // ------------------------------------------------------------------
  // Wilder smoothing
  // ------------------------------------------------------------------

  function WilderStep(prev: real, x: real, period: nat): real
    requires period >= 1
  {
    (Times(prev, period as real - 1.0) + x) / period as real
  }

  /** Wilder's average of changes x, indexed by bar: bar i has seen changes 0..i-1. */
  function WilderAt(x: seq<real>, period: nat, i: nat): real
    requires 1 <= period <= i <= |x|
    decreases i
  {
    if i == period then Mean(x[..period])
    else WilderStep(WilderAt(x, period, i - 1), x[i - 1], period)
  }

  // ------------------------------------------------------------------
  // Prefix stability: a value at bar i depends on bars 0..i only
  // ------------------------------------------------------------------

  lemma {:induction false} EmaAtStable(v: seq<real>, w: seq<real>, period: nat, i: nat, m: nat)
    requires 1 <= period <= i + 1 <= m <= |v| && m <= |w| && v[..m] == w[..m]
    ensures EmaAt(v, period, i) == EmaAt(w, period, i)
    decreases i
  {
    assert v[i] == v[..m][i] == w[..m][i] == w[i];
    if i == period - 1 {
      assert v[..period] == v[..m][..period] == w[..m][..period] == w[..period];
    } else {
      EmaAtStable(v, w, period, i - 1, m);
    }
  }

  lemma {:induction false} WilderAtStable(x: seq<real>, y: seq<real>, period: nat, i: nat, m: nat)
    requires 1 <= period <= i <= m <= |x| && m <= |y| && x[..m] == y[..m]
    ensures WilderAt(x, period, i) == WilderAt(y, period, i)
    decreases i
  {
    if i == period {
      assert x[..period] == x[..m][..period] == y[..m][..period] == y[..period];
    } else {
      assert x[i - 1] == x[..m][i - 1] == y[..m][i - 1] == y[i - 1];
      WilderAtStable(x, y, period, i - 1, m);
    }
  }

  lemma {:induction false} ValidIndicesPrefix(data: seq<Cell>, m: nat, n: nat)
    requires m <= n <= |data|
    ensures ValidIndices(data, m) <= ValidIndices(data, n)
    ensures forall j :: |ValidIndices(data, m)| <= j < |ValidIndices(data, n)| ==> ValidIndices(data, n)[j] >= m
    decreases n
  {
    if m < n {
      ValidIndicesPrefix(data, m, n - 1);
    }
  }

  lemma {:induction false} ValidIndicesStable(data: seq<Cell>, other: seq<Cell>, m: nat)
    requires m <= |data| && m <= |other| && forall i :: 0 <= i < m ==> data[i] == other[i]
    ensures ValidIndices(data, m) == ValidIndices(other, m)
  {
    if m > 0 {
      ValidIndicesStable(data, other, m - 1);
    }
  }

  lemma {:induction false} SmoothedAtStable(data: seq<Cell>, other: seq<Cell>, alpha: real,
      start: nat, seed: real, i: nat)
    requires start <= i < |data| && i < |other| && forall j :: 0 <= j <= i ==> data[j] == other[j]
    ensures SmoothedAt(data, alpha, start, seed, i) == SmoothedAt(other, alpha, start, seed, i)
    decreases i
  {
    if i > start {
      SmoothedAtStable(data, other, alpha, start, seed, i - 1);
    }
  }

  // ------------------------------------------------------------------
  // Data whose NaNs are exactly a leading run
  // ------------------------------------------------------------------

  predicate NaNPrefixed(data: seq<Cell>, k: nat) {
    k <= |data| && forall i :: 0 <= i < |data| ==> (data[i].NaN? <==> i < k)
  }

  lemma {:induction false} ValidOfPrefixed(data: seq<Cell>, k: nat, n: nat)
    requires NaNPrefixed(data, k) && n <= |data|
    ensures |ValidIndices(data, n)| == if n <= k then 0 else n - k
    ensures forall j :: 0 <= j < |ValidIndices(data, n)| ==> ValidIndices(data, n)[j] == k + j
  {
    if n > 0 {
      ValidOfPrefixed(data, k, n - 1);
    }
  }
}
