/** Training labels from a forward-return horizon. */
module Labels {
  import opened Basics
  import opened Series

  /** The return over the horizon; zero where bad data has a price that is not positive. */
  function ForwardReturn(present: real, future: real): real {
    if present > 0.0 then (future - present) / present else 0.0
  }

  function LabelOf(forward: real, threshold: real): real {
    if forward < -threshold then -1.0 else if forward > threshold then 1.0 else 0.0
  }

  /** The label of bar b: NaN while its horizon reaches past the end of the series. */
  function LabelAt(closes: seq<real>, horizon: nat, threshold: real, b: nat): Cell
    requires b < |closes|
  {
    if b + horizon >= |closes| then NaN
    else Num(LabelOf(ForwardReturn(closes[b], closes[b + horizon]), threshold))
  }

  function LabelsOf(closes: seq<real>, horizon: nat, threshold: real): seq<Cell> {
    seq(|closes|, b requires 0 <= b < |closes| => LabelAt(closes, horizon, threshold, b))
  }

  class LabelGenerator {
    const horizon: nat
    const threshold: real

    constructor (horizon: nat, threshold: real)
      requires horizon >= 1 && threshold > 0.0
      ensures this.horizon == horizon && this.threshold == threshold
    {
      this.horizon, this.threshold := horizon, threshold;
    }

    /** The constructor's range checks; None stands for the ValueError. */
    static method Create(horizon: int, threshold: real) returns (made: Option<LabelGenerator>)
      ensures made.Some? <==> horizon >= 1 && threshold > 0.0
      ensures made.Some? ==> fresh(made.value) && made.value.horizon == horizon && made.value.threshold == threshold
    {
      if horizon < 1 || threshold <= 0.0 {
        return None;
      }
      var generator := new LabelGenerator(horizon, threshold);
      made := Some(generator);
    }

    /** Two masked assignments over zeros. */
    method Classify(forward: seq<real>) returns (out: array<real>)
      ensures fresh(out) && out.Length == |forward|
      ensures forall j :: 0 <= j < |forward| ==> out[j] == LabelOf(forward[j], threshold)
    {
      out := new real[|forward|](_ => 0.0);
      for b := 0 to |forward|
        invariant forall j :: 0 <= j < |forward| ==> out[j] == if j < b && forward[j] > threshold then 1.0 else 0.0
      {
        if forward[b] > threshold {
          out[b] := 1.0;
        }
      }
      for b := 0 to |forward|
        invariant forall j :: 0 <= j < |forward| ==>
          out[j] == if j < b then LabelOf(forward[j], threshold) else if forward[j] > threshold then 1.0 else 0.0
      {
        if forward[b] < -threshold {
          out[b] := -1.0;
        }
      }
    }

    method Generate(closes: seq<real>) returns (labels: array<Cell>)
      ensures fresh(labels) && labels[..] == LabelsOf(closes, horizon, threshold)
    {
      var n := |closes|;
      labels := new Cell[n](_ => NaN);
      if n <= horizon {
        return;
      }
      var forward := seq(n - horizon, b requires 0 <= b < n - horizon => ForwardReturn(closes[b], closes[b + horizon]));
      var out := Classify(forward);
      for b := 0 to n - horizon
        invariant forall j :: 0 <= j < b ==> labels[j] == LabelAt(closes, horizon, threshold, j)
        invariant forall j :: b <= j < n ==> labels[j] == NaN
        modifies labels
      {
        assert forward[b] == ForwardReturn(closes[b], closes[b + horizon]);
        labels[b] := Num(out[b]);
      }
    }
  }

  // ------------------------------------------------------------------
  // What a label means
  // ------------------------------------------------------------------

  /** A quotient exceeds t exactly when the dividend exceeds t times the divisor. */
  lemma QuotientExceeds(x: real, p: real, t: real)
    requires p > 0.0
    ensures x / p > t <==> x > t * p
  {
    var q := x / p;
    assert q * p == x;
    Scaled(q, t, p);
    Scaled(t, q, p);
  }

  lemma Scaled(a: real, b: real, p: real)
    requires p > 0.0
    ensures a > b <==> a * p > b * p
  {
    if a > b {
      assert (a - b) * p > 0.0;
    } else {
      assert (b - a) * p >= 0.0;
    }
  }

  /**
   A bar is labelled exactly when its horizon has closed within the series: buy when the later close
   is more than the threshold above a positive close, sell when it is more than the threshold below.
   */
  lemma LabelMeaning(closes: seq<real>, horizon: nat, threshold: real, b: nat)
    requires threshold > 0.0 && b < |closes|
    ensures var got, p := LabelsOf(closes, horizon, threshold)[b], closes[b];
            && (got.Num? <==> b + horizon < |closes|)
            && (got.Num? ==>
                  && got.v in [-1.0, 0.0, 1.0]
                  && (got.v == 1.0 <==> p > 0.0 && closes[b + horizon] > p + threshold * p)
                  && (got.v == -1.0 <==> p > 0.0 && closes[b + horizon] < p - threshold * p))
  {
    if b + horizon < |closes| && closes[b] > 0.0 {
      var p, x := closes[b], closes[b + horizon] - closes[b];
      QuotientExceeds(x, p, threshold);
      QuotientExceeds(-x, p, threshold);
      assert (-x) / p == -(x / p);
    }
  }

  /** Two histories that share their first m closes agree on every label whose horizon ends before m. */
  lemma LabelsAgree(c1: seq<real>, c2: seq<real>, horizon: nat, threshold: real, m: nat, b: nat)
    requires m <= |c1| && m <= |c2| && c1[..m] == c2[..m] && b + horizon < m
    ensures LabelsOf(c1, horizon, threshold)[b] == LabelsOf(c2, horizon, threshold)[b]
    ensures LabelsOf(c1, horizon, threshold)[b].Num?
  {
    assert c1[..m][b] == c2[..m][b] && c1[..m][b + horizon] == c2[..m][b + horizon];
  }

  /** One bar later is too late: histories that share exactly b + horizon closes can differ on the label of b. */
  lemma CutoffIsTight(horizon: nat, threshold: real, b: nat) returns (c1: seq<real>, c2: seq<real>)
    requires horizon >= 1 && threshold > 0.0
    ensures |c1| == |c2| == b + horizon + 1 && c1[..b + horizon] == c2[..b + horizon]
    ensures LabelsOf(c1, horizon, threshold)[b] != LabelsOf(c2, horizon, threshold)[b]
  {
    c1 := seq(b + horizon + 1, _ => 1.0);
    c2 := c1[..b + horizon] + [2.0 + threshold];
    assert ForwardReturn(1.0, 2.0 + threshold) == 1.0 + threshold;
  }
}
