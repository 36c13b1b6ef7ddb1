/** What the walk-forward backtest promises: no lookahead, past-only training, and its retrain schedule. */
module WalkForwardRuns {
  import opened Basics
  import opened Market
  import opened Series
  import opened WalkForward
  import Features
  import FeatureTables
  import Labels
  import Engine
  import EngineRuns
  import CandleBuffer

  // ------------------------------------------------------------------
  // No lookahead
  // ------------------------------------------------------------------

  /** Two data sets that cannot be told apart by bar m - 1: same rows of bars before m, same closed labels. */
  ghost predicate Shared<X>(p: Params, d1: Data<X>, d2: Data<X>, m: nat) {
    && p.Valid() && d1.Aligned() && d2.Aligned() && m <= |d1.labels| && m <= |d2.labels|
    && (forall r :: 0 <= r < m - START ==> d1.rows[r] == d2.rows[r])
    && (forall b :: 0 <= b < m - p.horizon ==> d1.labels[b] == d2.labels[b])
  }

  lemma SameTrainingSet<X>(p: Params, d1: Data<X>, d2: Data<X>, m: nat, i: nat)
    requires Shared(p, d1, d2, m) && i < m && HasHistory(p, i)
    ensures TrainingSet(p, d1, i) == TrainingSet(p, d2, i)
  {
    var k := i - p.horizon - START + 1;
    assert d1.rows[..k] == d2.rows[..k];
    assert d1.labels[START..i - p.horizon + 1] == d2.labels[START..i - p.horizon + 1];
  }

  lemma {:induction false} SameTraining<X, M>(learner: Learner<X, M>, p: Params, d1: Data<X>, d2: Data<X>,
      m: nat, k: nat)
    requires Shared(p, d1, d2, m) && k <= m
    ensures Before(learner, p, d1, k) == Before(learner, p, d2, k)
    decreases k
  {
    if k > 0 {
      SameTraining(learner, p, d1, d2, m, k - 1);
      if HasHistory(p, k - 1) {
        SameTrainingSet(p, d1, d2, m, k - 1);
      }
    }
  }

  lemma SameDecision<X, M>(learner: Learner<X, M>, p: Params, d1: Data<X>, d2: Data<X>, m: nat, i: nat)
    requires Shared(p, d1, d2, m) && i < m
    ensures DecisionAt(learner, p, d1, i) == DecisionAt(learner, p, d2, i)
  {
    SameTraining(learner, p, d1, d2, m, i + 1);
  }

  lemma TakeIsShared(lib: Features.Libm, c1: seq<Candle>, c2: seq<Candle>, m: nat)
    requires m <= |c1| && m <= |c2| && c1[..m] == c2[..m]
    ensures Features.Take(Features.ToBars(c1), m) == Features.Take(Features.ToBars(c2), m)
  {
    Features.ToBarsTake(c1, m);
    Features.ToBarsTake(c2, m);
  }

  lemma SharedRow(row: FeatureTables.RowFunction, b1: Features.Bars, b2: Features.Bars, m: nat, r: nat)
    requires FeatureTables.PrefixStable(row) && m <= |b1.closes| && m <= |b2.closes|
    requires Features.Take(b1, m) == Features.Take(b2, m) && r < m - START
    ensures FeatureTables.RowsBy(row, b1, |b1.closes|)[r] == FeatureTables.RowsBy(row, b2, |b2.closes|)[r]
  {
    var i := r + START;
    FeatureTables.RowsAt(row, b1, |b1.closes|, i);
    FeatureTables.RowsAt(row, b2, |b2.closes|, i);
    assert row(Features.Take(b1, m), i) == row(b1, i);
    assert row(Features.Take(b2, m), i) == row(b2, i);
  }

  /** Matrices and labels built over two whole histories that share their first m candles. */
  lemma DataIsShared(lib: Features.Libm, p: Params, c1: seq<Candle>, c2: seq<Candle>, m: nat)
    requires p.Valid() && m <= |c1| && m <= |c2| && c1[..m] == c2[..m]
    ensures Shared(p, DataOf(lib, p, c1), DataOf(lib, p, c2), m)
  {
    var b1, b2 := Features.ToBars(c1), Features.ToBars(c2);
    TakeIsShared(lib, c1, c2, m);
    FeatureTables.EngineerIsStable(lib);
    forall r | 0 <= r < m - START ensures DataOf(lib, p, c1).rows[r] == DataOf(lib, p, c2).rows[r] {
      SharedRow(FeatureTables.Engineer(lib), b1, b2, m, r);
    }
    forall b | 0 <= b < m - p.horizon ensures DataOf(lib, p, c1).labels[b] == DataOf(lib, p, c2).labels[b] {
      assert b1.closes[..m] == Features.Take(b1, m).closes;
      assert b2.closes[..m] == Features.Take(b2, m).closes;
      Labels.LabelsAgree(b1.closes, b2.closes, p.horizon, p.threshold, m, b);
    }
  }

  /**
   Walk-forward has no lookahead. For two candle series sharing bars 0..i, the decision at bar i, the
   model behind it and the whole training history are the same, although features and labels are
   computed over each full series.
   */
  lemma NoLookahead<M>(lib: Features.Libm, learner: Learner<Features.FeatureRow, M>, p: Params,
      c1: seq<Candle>, c2: seq<Candle>, i: nat)
    requires p.Valid() && i < |c1| && i < |c2| && c1[..i + 1] == c2[..i + 1]
    ensures var d1, d2 := DataOf(lib, p, c1), DataOf(lib, p, c2);
            && DecisionAt(learner, p, d1, i) == DecisionAt(learner, p, d2, i)
            && forall k: nat :: k <= i + 1 ==> Before(learner, p, d1, k) == Before(learner, p, d2, k)
  {
    var d1, d2 := DataOf(lib, p, c1), DataOf(lib, p, c2);
    DataIsShared(lib, p, c1, c2, i + 1);
    SameDecision(learner, p, d1, d2, i + 1, i);
    forall k: nat | k <= i + 1 ensures Before(learner, p, d1, k) == Before(learner, p, d2, k) {
      SameTraining(learner, p, d1, d2, i + 1, k);
    }
  }

  lemma SharedDecisions<X, M>(learner: Learner<X, M>, p: Params, d1: Data<X>, d2: Data<X>,
      c1: seq<Candle>, c2: seq<Candle>, m: nat)
    requires Shared(p, d1, d2, m) && |d1.labels| == |c1| && |d2.labels| == |c2|
    requires m < |c1| && m < |c2| && c1[..m] == c2[..m]
    ensures EngineRuns.AgreeBefore(c1, Decider(learner, p, d1), c2, Decider(learner, p, d2), m)
  {
    forall i | 0 <= i < m ensures Decider(learner, p, d1)(i) == Decider(learner, p, d2)(i) {
      SameDecision(learner, p, d1, d2, m, i);
    }
  }

  /**
   End to end: two walk-forward backtests over series that share the first m candles have equal equity
   points 0..m-1 and the same trades closed by bar m-1, whatever the candles after that.
   */
  lemma WalkForwardCausality<M>(lib: Features.Libm, learner: Learner<Features.FeatureRow, M>, p: Params,
      cfg: Engine.Config, c1: seq<Candle>, c2: seq<Candle>, m: nat)
    returns (closed: seq<Engine.Trade>)
    requires p.Valid() && m < |c1| && m < |c2| && c1[..m] == c2[..m]
    ensures var r1 := Engine.Run(cfg, c1, Decider(learner, p, DataOf(lib, p, c1)));
            var r2 := Engine.Run(cfg, c2, Decider(learner, p, DataOf(lib, p, c2)));
            && m <= |r1.curve| && m <= |r2.curve| && r1.curve[..m] == r2.curve[..m]
            && closed <= r1.trades && closed <= r2.trades
            && (forall a :: 0 <= a < |r1.trades| ==> (r1.trades[a].exitIndex < m <==> a < |closed|))
            && (forall a :: 0 <= a < |r2.trades| ==> (r2.trades[a].exitIndex < m <==> a < |closed|))
  {
    var d1, d2 := DataOf(lib, p, c1), DataOf(lib, p, c2);
    DataIsShared(lib, p, c1, c2, m);
    SharedDecisions(learner, p, d1, d2, c1, c2, m);
    closed := EngineRuns.EngineCausality(cfg, c1, Decider(learner, p, d1), c2, Decider(learner, p, d2), m);
  }

  // ------------------------------------------------------------------
  // Training samples
  // ------------------------------------------------------------------

  /** Labels are defined exactly where the horizon closes within the series. */
  ghost predicate ClosedLabels<X>(p: Params, data: Data<X>) {
    forall b :: 0 <= b < |data.labels| ==> (data.labels[b].Num? <==> b + p.horizon < |data.labels|)
  }

  lemma DataHasClosedLabels(lib: Features.Libm, p: Params, candles: seq<Candle>)
    requires p.Valid()
    ensures ClosedLabels(p, DataOf(lib, p, candles))
  {
    var closes := Features.ToBars(candles).closes;
    forall b | 0 <= b < |closes|
      ensures Labels.LabelsOf(closes, p.horizon, p.threshold)[b].Num? <==> b + p.horizon < |closes|
    {
      Labels.LabelMeaning(closes, p.horizon, p.threshold, b);
    }
  }

  lemma {:induction false} NothingDropped<X>(rows: seq<X>, labels: seq<Cell>)
    requires |rows| == |labels| && forall k :: 0 <= k < |labels| ==> labels[k].Num?
    ensures Labelled(rows, labels).rows == rows
    ensures forall k :: 0 <= k < |rows| ==> Labelled(rows, labels).classes[k] == ClassOf(labels[k].v)
    decreases |rows|
  {
    if rows != [] {
      var n := |rows| - 1;
      NothingDropped(rows[..n], labels[..n]);
      assert rows == rows[..n] + [rows[n]];
    }
  }

  /** The training set at bar i is every bar from 59 to i - horizon; the NaN mask drops none of them. */
  lemma TrainsOnClosedLabels<X>(p: Params, data: Data<X>, i: nat)
    requires p.Valid() && data.Aligned() && ClosedLabels(p, data) && i < |data.labels| && HasHistory(p, i)
    ensures var s := TrainingSet(p, data, i);
            && s.rows == data.rows[..i - p.horizon - START + 1]
            && forall k :: 0 <= k < |s.rows| ==>
                 && k + START + p.horizon <= i && data.labels[k + START].Num?
                 && s.classes[k] == ClassOf(data.labels[k + START].v)
  {
    NothingDropped(data.rows[..i - p.horizon - START + 1], data.labels[START..i - p.horizon + 1]);
  }

  /** In the data of any backtest every training set is exactly the past: no row is dropped, no label is open. */
  lemma TrainsOnThePast(lib: Features.Libm, p: Params, candles: seq<Candle>, i: nat)
    requires p.Valid() && i < |candles| && HasHistory(p, i)
    ensures var data := DataOf(lib, p, candles);
            var s := TrainingSet(p, data, i);
            && s.rows == data.rows[..i - p.horizon - START + 1]
            && forall k :: 0 <= k < |s.rows| ==>
                 && k + START + p.horizon <= i && data.labels[k + START].Num?
                 && s.classes[k] == ClassOf(data.labels[k + START].v)
  {
    DataHasClosedLabels(lib, p, candles);
    TrainsOnClosedLabels(p, DataOf(lib, p, candles), i);
  }

  lemma {:induction false} LabelledPrefix<X>(rows: seq<X>, labels: seq<Cell>, k: nat)
    requires |rows| == |labels| && k <= |rows|
    ensures Labelled(rows[..k], labels[..k]).rows <= Labelled(rows, labels).rows
    ensures Labelled(rows[..k], labels[..k]).classes <= Labelled(rows, labels).classes
    decreases |rows|
  {
    if k == |rows| {
      assert rows[..k] == rows && labels[..k] == labels;
    } else {
      var n := |rows| - 1;
      LabelledPrefix(rows[..n], labels[..n], k);
      assert rows[..n][..k] == rows[..k] && labels[..n][..k] == labels[..k];
    }
  }

  lemma DistinctIs(classes: seq<nat>, present: set<nat>)
    requires forall c :: c in present <==> c in classes
    ensures Distinct(classes) == |present|
  {
    assert present == set c | c in classes;
  }

  lemma Subsets(small: set<nat>, large: set<nat>)
    requires small <= large
    ensures |small| <= |large|
  {
    assert large == small + (large - small);
  }

  lemma MoreClasses(a: seq<nat>, b: seq<nat>)
    requires a <= b
    ensures Distinct(a) <= Distinct(b)
  {
    var s, t := set c | c in a, set c | c in b;
    DistinctIs(a, s);
    DistinctIs(b, t);
    assert forall c :: c in a ==> c in b;
    Subsets(s, t);
  }

  /** A model can be trained at bar i. */
  predicate Ready<X>(p: Params, data: Data<X>, i: nat)
    requires p.Valid() && data.Aligned() && i < |data.labels|
  {
    i >= p.initialTrain && HasHistory(p, i) && Trainable(p, TrainingSet(p, data, i))
  }

  lemma TrainingSetGrows<X>(p: Params, data: Data<X>, i: nat, j: nat)
    requires p.Valid() && data.Aligned() && i <= j < |data.labels| && HasHistory(p, i)
    ensures TrainingSet(p, data, i).rows <= TrainingSet(p, data, j).rows
    ensures TrainingSet(p, data, i).classes <= TrainingSet(p, data, j).classes
  {
    var rows, labels := data.rows[..j - p.horizon - START + 1], data.labels[START..j - p.horizon + 1];
    var k := i - p.horizon - START + 1;
    LabelledPrefix(rows, labels, k);
    assert rows[..k] == data.rows[..k];
    assert labels[..k] == data.labels[START..i - p.horizon + 1];
  }

  /** Samples are never lost, so what could be trained once can be trained ever after. */
  lemma ReadyStays<X>(p: Params, data: Data<X>, i: nat, j: nat)
    requires p.Valid() && data.Aligned() && i <= j < |data.labels| && Ready(p, data, i)
    ensures Ready(p, data, j)
  {
    TrainingSetGrows(p, data, i, j);
    MoreClasses(TrainingSet(p, data, i).classes, TrainingSet(p, data, j).classes);
  }

  // ------------------------------------------------------------------
  // The retrain schedule
  // ------------------------------------------------------------------

  /** The first bar before k at which a model can be trained. */
  function FirstReady<X>(p: Params, data: Data<X>, k: nat): Option<nat>
    requires p.Valid() && data.Aligned() && k <= |data.labels|
    decreases k
  {
    if k == 0 then None
    else
      var earlier := FirstReady(p, data, k - 1);
      if earlier.Some? then earlier
      else if Ready(p, data, k - 1) then Some(k - 1) else None
  }

  lemma {:induction false} FirstIsLeast<X>(p: Params, data: Data<X>, k: nat)
    requires p.Valid() && data.Aligned() && k <= |data.labels|
    ensures var first := FirstReady(p, data, k);
            && (first.None? ==> forall j :: 0 <= j < k ==> !Ready(p, data, j))
            && (first.Some? ==> first.value < k && Ready(p, data, first.value)
                                && forall j :: 0 <= j < first.value ==> !Ready(p, data, j))
    decreases k
  {
    if k > 0 {
      FirstIsLeast(p, data, k - 1);
    }
  }

  lemma ReadySinceFirst<X>(p: Params, data: Data<X>, i: nat)
    requires p.Valid() && data.Aligned() && i < |data.labels| && FirstReady(p, data, i).Some?
    ensures Ready(p, data, i)
  {
    FirstIsLeast(p, data, i);
    ReadyStays(p, data, FirstReady(p, data, i).value, i);
  }

  /** Retraining happens at the first possible bar and every `every` bars from then on. */
  function Every(p: Params): nat {
    if p.retrainEvery >= 1 then p.retrainEvery else 1
  }

  /** Bar t is one of first, first + e, first + 2 * e, ... */
  predicate OnGrid(first: nat, t: nat, e: nat)
    requires e >= 1
    decreases t
  {
    t == first || (t >= first + e && OnGrid(first, t - e, e))
  }

  /** Bar t is on the schedule: first, first + every, first + 2 * every, ... from the first trainable bar on. */
  predicate IsScheduled<X>(p: Params, data: Data<X>, t: nat)
    requires p.Valid() && data.Aligned() && t < |data.labels|
  {
    var first := FirstReady(p, data, t + 1);
    first.Some? && OnGrid(first.value, t, Every(p))
  }

  lemma ScheduledIsReady<X>(p: Params, data: Data<X>, t: nat)
    requires p.Valid() && data.Aligned() && t < |data.labels| && IsScheduled(p, data, t)
    ensures Ready(p, data, t)
  {
    FirstIsLeast(p, data, t + 1);
    ReadyStays(p, data, FirstReady(p, data, t + 1).value, t);
  }

  /** Bar t is on the schedule, so it can be trained at, and the fit on its samples raises. */
  predicate Fails<X, M>(learner: Learner<X, M>, p: Params, data: Data<X>, t: nat)
    requires p.Valid() && data.Aligned() && t < |data.labels|
  {
    IsScheduled(p, data, t) && HasHistory(p, t) && Fitted(learner, p, TrainingSet(p, data, t)).None?
  }

  ghost predicate NoFailureBefore<X, M>(learner: Learner<X, M>, p: Params, data: Data<X>, k: nat)
    requires p.Valid() && data.Aligned() && k <= |data.labels|
  {
    forall t: nat :: t < k ==> !Fails(learner, p, data, t)
  }

  /** Trained every `e` bars from `first` on, last at the latest such bar before k. */
  predicate Paced<M>(st: State<M>, first: nat, e: nat, k: nat)
    requires e >= 1
  {
    && st.retrains >= 1 && st.lastTrain - first == (st.retrains - 1) * e
    && first <= st.lastTrain < k <= st.lastTrain + e && OnGrid(first, st.lastTrain, e)
  }

  /** No training yet, or the model of the last bar of the schedule. */
  ghost predicate Regular<X, M>(learner: Learner<X, M>, p: Params, data: Data<X>, st: State<M>, k: nat)
    requires p.Valid() && data.Aligned() && k <= |data.labels|
  {
    var first := FirstReady(p, data, k);
    if first.None? then st == State(None, NEVER, 0, false)
    else
      && !st.raised && Paced(st, first.value, Every(p), k) && Ready(p, data, st.lastTrain)
      && st.model.Some? && st.model == Fitted(learner, p, TrainingSet(p, data, st.lastTrain))
  }

  /** The fit of bar t, the first of the schedule to fail, has raised; all else is as it was before t. */
  ghost predicate StoppedAt<X, M>(learner: Learner<X, M>, p: Params, data: Data<X>, st: State<M>, t: nat)
    requires p.Valid() && data.Aligned() && t < |data.labels|
  {
    && st.raised && Fails(learner, p, data, t) && NoFailureBefore(learner, p, data, t)
    && Regular(learner, p, data, st.(raised := false), t)
  }

  ghost predicate OnSchedule<X, M>(learner: Learner<X, M>, p: Params, data: Data<X>, st: State<M>, k: nat)
    requires p.Valid() && data.Aligned() && k <= |data.labels|
  {
    if st.raised then exists t: nat :: t < k && StoppedAt(learner, p, data, st, t)
    else Regular(learner, p, data, st, k) && NoFailureBefore(learner, p, data, k)
  }

  lemma NextTraining(last: int, first: int, n: int, e: int)
    requires last - first == (n - 1) * e
    ensures last + e - first == (n + 1 - 1) * e
  {
  }

  /** Between two bars of the grid there is none, and the next one is `e` later. */
  lemma {:induction false} NextOnGrid(first: nat, last: nat, e: nat, i: nat)
    requires e >= 1 && OnGrid(first, last, e) && last < i <= last + e
    ensures OnGrid(first, i, e) <==> i == last + e
    decreases last
  {
    if last != first && i >= e {
      NextOnGrid(first, last - e, e, i - e);
    }
  }

  /** One decision trains exactly when a model can be trained and none is in use or it is due for replacement. */
  lemma TrainsIff<X, M>(learner: Learner<X, M>, p: Params, data: Data<X>, st: State<M>, i: nat)
    requires p.Valid() && data.Aligned() && i < |data.labels|
    ensures var due := st.model.None? || i - st.lastTrain >= p.retrainEvery;
            Advanced(learner, p, data, st, i)
            == if st.raised || !due || !Ready(p, data, i) then st
               else
                 var fitted := Fitted(learner, p, TrainingSet(p, data, i));
                 if fitted.None? then st.(raised := true) else State(fitted, i, st.retrains + 1, false)
  {
  }

  /** A regular model is trained or replaced exactly at the bars of the schedule. */
  lemma TrainsOnSchedule<X, M>(learner: Learner<X, M>, p: Params, data: Data<X>, st: State<M>, i: nat)
    requires p.Valid() && data.Aligned() && i < |data.labels| && Regular(learner, p, data, st, i)
    ensures (st.model.None? || i - st.lastTrain >= p.retrainEvery) && Ready(p, data, i) <==> IsScheduled(p, data, i)
  {
    var first := FirstReady(p, data, i);
    if first.Some? {
      FirstIsLeast(p, data, i);
      ReadySinceFirst(p, data, i);
      NextOnGrid(first.value, st.lastTrain, Every(p), i);
    }
  }

  lemma PacedOn<M>(st: State<M>, first: nat, e: nat, i: nat, model: Option<M>)
    requires e >= 1 && Paced(st, first, e, i)
    ensures i < st.lastTrain + e ==> Paced(st, first, e, i + 1)
    ensures i == st.lastTrain + e ==> Paced(State(model, i, st.retrains + 1, false), first, e, i + 1)
  {
    NextTraining(st.lastTrain, first, st.retrains, e);
    NextOnGrid(first, st.lastTrain, e, i);
  }

  lemma StaysRegular<X, M>(learner: Learner<X, M>, p: Params, data: Data<X>, st: State<M>, i: nat)
    requires p.Valid() && data.Aligned() && i < |data.labels| && Regular(learner, p, data, st, i)
    requires !Advanced(learner, p, data, st, i).raised
    ensures Regular(learner, p, data, Advanced(learner, p, data, st, i), i + 1)
  {
    TrainsIff(learner, p, data, st, i);
    var first := FirstReady(p, data, i);
    if first.Some? {
      ReadySinceFirst(p, data, i);
      PacedOn(st, first.value, Every(p), i, Fitted(learner, p, TrainingSet(p, data, i)));
    }
  }

  /** A regular decision raises exactly at a bar of the schedule whose fit raises. */
  lemma RaisesAtFailure<X, M>(learner: Learner<X, M>, p: Params, data: Data<X>, st: State<M>, i: nat)
    requires p.Valid() && data.Aligned() && i < |data.labels| && Regular(learner, p, data, st, i)
    ensures Advanced(learner, p, data, st, i).raised <==> Fails(learner, p, data, i)
    ensures Advanced(learner, p, data, st, i).raised ==> Advanced(learner, p, data, st, i) == st.(raised := true)
  {
    TrainsIff(learner, p, data, st, i);
    TrainsOnSchedule(learner, p, data, st, i);
  }

  lemma StaysOnSchedule<X, M>(learner: Learner<X, M>, p: Params, data: Data<X>, st: State<M>, i: nat)
    requires p.Valid() && data.Aligned() && i < |data.labels| && OnSchedule(learner, p, data, st, i)
    ensures OnSchedule(learner, p, data, Advanced(learner, p, data, st, i), i + 1)
  {
    if !st.raised {
      RaisesAtFailure(learner, p, data, st, i);
      if Fails(learner, p, data, i) {
        assert StoppedAt(learner, p, data, st.(raised := true), i);
      } else {
        StaysRegular(learner, p, data, st, i);
      }
    }
  }

  /**
   The model used at bar i is the one trained at bar t on bars 59 to t - horizon, where t is the last
   bar of the schedule first, first + every, first + 2 * every, ... that is not after i; so a model
   predicts bars [t, t + retrain_every) and none before the first trainable bar. A run that ended early
   stopped at the first bar of the schedule whose fit raises.
   */
  lemma {:induction false} RetrainSchedule<X, M>(learner: Learner<X, M>, p: Params, data: Data<X>, k: nat)
    requires p.Valid() && data.Aligned() && k <= |data.labels|
    ensures OnSchedule(learner, p, data, Before(learner, p, data, k), k)
    decreases k
  {
    if k > 0 {
      RetrainSchedule(learner, p, data, k - 1);
      StaysOnSchedule(learner, p, data, Before(learner, p, data, k - 1), k - 1);
    }
  }

  /** The first k decisions raise if and only if the fit of some bar of the schedule before k does. */
  lemma RaisesIffScheduledFitFails<X, M>(learner: Learner<X, M>, p: Params, data: Data<X>, k: nat)
    requires p.Valid() && data.Aligned() && k <= |data.labels|
    ensures Before(learner, p, data, k).raised <==> exists t: nat :: t < k && Fails(learner, p, data, t)
  {
    RetrainSchedule(learner, p, data, k);
  }

  // ------------------------------------------------------------------
  // What a prediction reads
  // ------------------------------------------------------------------

  /** The decision is what the probabilities call for: class 2, learnt from rises, buys and class 0 sells. */
  predicate Calls(p: Params, proba: Probabilities, decision: Option<Side>) {
    && (decision == Some(Buy) <==>
          proba.class2 > proba.class1 && proba.class2 > proba.class0 && proba.class2 >= p.directionalThreshold)
    && (decision == Some(Sell) <==>
          proba.class0 >= proba.class1 && proba.class0 >= proba.class2 && proba.class0 >= p.directionalThreshold)
  }

  /** The same for any prefix-stable row function. */
  lemma PredictsFromLatest<M>(row: FeatureTables.RowFunction, learner: Learner<Features.FeatureRow, M>, p: Params,
      data: Data<Features.FeatureRow>, candles: seq<Candle>, i: nat)
    requires p.Valid() && data.Aligned() && |data.labels| == |candles| && FeatureTables.PrefixStable(row)
    requires data.rows == FeatureTables.RowsBy(row, Features.ToBars(candles), |candles|)
    requires Ascending(candles) && i < |candles| && START <= i < CandleBuffer.MAX_BUFFER_SIZE
    requires i >= p.initialTrain && Before(learner, p, data, i + 1).model.Some?
    ensures var buffer := CandleBuffer.BufferOf(candles[..i + 1], CandleBuffer.MAX_BUFFER_SIZE);
            var vector := FeatureTables.LatestBy(row, Features.ToBars(buffer));
            vector.Some? &&
            Calls(p, learner.predict(Before(learner, p, data, i + 1).model.value, vector.value),
              DecisionAt(learner, p, data, i))
  {
    FeatureTables.StableRowsAgree(row, candles, i);
    EmittedIff(p, learner.predict(Before(learner, p, data, i + 1).model.value, data.rows[i - START]));
  }

  /**
   Within the buffer's capacity a model in use predicts from exactly the vector the live agent would
   build at that bar, although the backtest takes it from a matrix over the whole series.
   */
  lemma PredictsFromLiveVector<M>(lib: Features.Libm, learner: Learner<Features.FeatureRow, M>, p: Params,
      candles: seq<Candle>, i: nat)
    requires p.Valid() && Ascending(candles) && i < |candles| && START <= i < CandleBuffer.MAX_BUFFER_SIZE
    requires i >= p.initialTrain && Before(learner, p, DataOf(lib, p, candles), i + 1).model.Some?
    ensures var buffer := CandleBuffer.BufferOf(candles[..i + 1], CandleBuffer.MAX_BUFFER_SIZE);
            var vector := FeatureTables.FeaturesOf(lib, buffer);
            vector.Some? &&
            Calls(p, learner.predict(Before(learner, p, DataOf(lib, p, candles), i + 1).model.value, vector.value),
              DecisionAt(learner, p, DataOf(lib, p, candles), i))
  {
    FeatureTables.EngineerIsStable(lib);
    PredictsFromLatest(FeatureTables.Engineer(lib), learner, p, DataOf(lib, p, candles), candles, i);
  }

  // ------------------------------------------------------------------
  // Decisions and weights
  // ------------------------------------------------------------------

  /** An order is emitted exactly for a directional class that is most likely and likely enough. */
  lemma EmittedIff(p: Params, proba: Probabilities)
    ensures Emitted(p, proba) == Some(Buy) <==>
              proba.class2 > proba.class1 && proba.class2 > proba.class0 && proba.class2 >= p.directionalThreshold
    ensures Emitted(p, proba) == Some(Sell) <==>
              proba.class0 >= proba.class1 && proba.class0 >= proba.class2 && proba.class0 >= p.directionalThreshold
  {
  }

  /** The weight carried by the samples of one class. */
  function WeightOf(classes: seq<nat>, weights: seq<real>, c: nat): real
    requires |classes| == |weights|
    decreases |classes|
  {
    if classes == [] then 0.0
    else
      var n := |classes| - 1;
      WeightOf(classes[..n], weights[..n], c) + if classes[n] == c then weights[n] else 0.0
  }

  lemma {:induction false} ConstantWeight(classes: seq<nat>, weights: seq<real>, c: nat, w: real)
    requires |classes| == |weights| && forall k :: 0 <= k < |classes| && classes[k] == c ==> weights[k] == w
    ensures WeightOf(classes, weights, c) == CountOf(classes, c) as real * w
    decreases |classes|
  {
    if classes != [] {
      var n := |classes| - 1;
      ConstantWeight(classes[..n], weights[..n], c, w);
      var before := CountOf(classes[..n], c) as real;
      assert (before + 1.0) * w == before * w + w;
    }
  }

  /** Every class present carries a third of the sample count, however rare it is. */
  lemma BalancedWeights(classes: seq<nat>, c: nat)
    requires CountOf(classes, c) > 0
    ensures WeightOf(classes, Weights(classes), c) == |classes| as real / 3.0
  {
    var count, n := CountOf(classes, c) as real, |classes| as real;
    ConstantWeight(classes, Weights(classes), c, InverseFrequency(classes, c));
    assert n / (3.0 * count) * (3.0 * count) == n;
  }
}
