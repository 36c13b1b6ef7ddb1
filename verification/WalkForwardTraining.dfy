/** What the walk-forward model learns from, in terms of the candles. */
module WalkForwardTraining {
  import opened Basics
  import opened Market
  import opened Series
  import opened WalkForward
  import Features
  import FeatureTables
  import Labels
  import WalkForwardRuns

  // ------------------------------------------------------------------
  // Classes
  // ------------------------------------------------------------------

  /** Over the horizon the close of bar b rises by more than the threshold. */
  predicate Rises(p: Params, candles: seq<Candle>, b: nat)
    requires p.Valid() && b + p.horizon < |candles|
  {
    var now, later := candles[b].close, candles[b + p.horizon].close;
    now > 0.0 && later > now + p.threshold * now
  }

  /** Over the horizon the close of bar b falls by more than the threshold. */
  predicate Falls(p: Params, candles: seq<Candle>, b: nat)
    requires p.Valid() && b + p.horizon < |candles|
  {
    var now, later := candles[b].close, candles[b + p.horizon].close;
    now > 0.0 && later < now - p.threshold * now
  }

  /** The class a bar is trained as: 2 for a rise, 0 for a fall, 1 otherwise. */
  predicate ClassFits(p: Params, candles: seq<Candle>, b: nat, cls: nat)
    requires p.Valid() && b + p.horizon < |candles|
  {
    && (cls == 2 <==> Rises(p, candles, b))
    && (cls == 0 <==> Falls(p, candles, b))
    && (cls == 1 <==> !Rises(p, candles, b) && !Falls(p, candles, b))
  }

  lemma ClassOfBar(p: Params, candles: seq<Candle>, b: nat)
    requires p.Valid() && b + p.horizon < |candles|
    ensures var got := Labels.LabelsOf(Features.ToBars(candles).closes, p.horizon, p.threshold)[b];
            got.Num? && ClassFits(p, candles, b, ClassOf(got.v))
  {
    var closes := Features.ToBars(candles).closes;
    assert closes[b] == candles[b].close && closes[b + p.horizon] == candles[b + p.horizon].close;
    Labels.LabelMeaning(closes, p.horizon, p.threshold, b);
    if closes[b] > 0.0 {
      PositiveMove(p.threshold, closes[b]);
    }
  }

  lemma PositiveMove(threshold: real, price: real)
    requires threshold > 0.0 && price > 0.0
    ensures threshold * price > 0.0
  {
  }

  /** These are the classes of the bars 59 to i - horizon. */
  ghost predicate ClassesFit(p: Params, candles: seq<Candle>, i: nat, classes: seq<nat>)
    requires p.Valid() && i < |candles|
  {
    && |classes| == i - p.horizon - START + 1
    && forall k :: 0 <= k < |classes| ==> ClassFits(p, candles, k + START, classes[k])
  }

  lemma ClassesOfLabels(p: Params, candles: seq<Candle>, i: nat, labels: seq<Cell>, classes: seq<nat>)
    requires p.Valid() && i < |candles| && |classes| == i - p.horizon - START + 1
    requires labels == Labels.LabelsOf(Features.ToBars(candles).closes, p.horizon, p.threshold)
    requires forall k :: 0 <= k < |classes| ==> labels[k + START].Num? && classes[k] == ClassOf(labels[k + START].v)
    ensures ClassesFit(p, candles, i, classes)
  {
    forall k | 0 <= k < |classes| ensures ClassFits(p, candles, k + START, classes[k]) {
      ClassOfBar(p, candles, k + START);
    }
  }

  /**
   The samples at bar i are the bars 59 to i - horizon, and each is trained as class 2 exactly when its
   close rose by more than the threshold over the horizon, as class 0 exactly when it fell by more.
   */
  lemma TrainsOnReturns(lib: Features.Libm, p: Params, candles: seq<Candle>, i: nat)
    requires p.Valid() && i < |candles| && HasHistory(p, i)
    ensures ClassesFit(p, candles, i, TrainingSet(p, DataOf(lib, p, candles), i).classes)
  {
    WalkForwardRuns.TrainsOnThePast(lib, p, candles, i);
    var data := DataOf(lib, p, candles);
    ClassesOfLabels(p, candles, i, data.labels, TrainingSet(p, data, i).classes);
  }

  /**
   At every bar the decision is what the model in use calls for on the feature row of that bar, taken
   over the whole series; without a model, before the first training or before bar 59 there is none.
   */
  lemma PredictsFromRow<M>(lib: Features.Libm, learner: Learner<Features.FeatureRow, M>, p: Params,
      candles: seq<Candle>, i: nat)
    requires p.Valid() && i < |candles|
    ensures var decision := DecisionAt(learner, p, DataOf(lib, p, candles), i);
            var model := Before(learner, p, DataOf(lib, p, candles), i + 1).model;
            if i >= p.initialTrain && i >= START && model.Some? then
              WalkForwardRuns.Calls(
                p, learner.predict(model.value, Features.Row(lib, Features.ToBars(candles), i)), decision)
            else decision.None?
  {
    if i >= p.initialTrain && i >= START {
      FeatureTables.RowsAt(FeatureTables.Engineer(lib), Features.ToBars(candles), |candles|, i);
      DecisionCalls(learner, p, DataOf(lib, p, candles), i, Features.Row(lib, Features.ToBars(candles), i));
    }
  }

  lemma DecisionCalls<X, M>(learner: Learner<X, M>, p: Params, data: Data<X>, i: nat, row: X)
    requires p.Valid() && data.Aligned() && START <= i < |data.labels| && i >= p.initialTrain
    requires row == data.rows[i - START]
    ensures var decision, model := DecisionAt(learner, p, data, i), Before(learner, p, data, i + 1).model;
            if model.Some? then WalkForwardRuns.Calls(p, learner.predict(model.value, row), decision)
            else decision.None?
  {
    var model := Before(learner, p, data, i + 1).model;
    if model.Some? {
      WalkForwardRuns.EmittedIff(p, learner.predict(model.value, row));
    }
  }

  // ------------------------------------------------------------------
  // When a model can be trained
  // ------------------------------------------------------------------

  lemma TwoClasses(classes: seq<nat>, j: nat, k: nat)
    requires j < |classes| && k < |classes| && classes[j] != classes[k]
    ensures Distinct(classes) >= 2
  {
    var present := set c | c in classes;
    WalkForwardRuns.DistinctIs(classes, present);
    var two := {classes[j], classes[k]};
    assert |two| == 2;
    WalkForwardRuns.Subsets(two, present);
  }

  lemma AtMostOneClass(classes: seq<nat>)
    requires forall j :: 0 <= j < |classes| ==> classes[j] == classes[0]
    ensures Distinct(classes) <= 1
  {
    WalkForwardRuns.DistinctIs(classes, if classes == [] then {} else {classes[0]});
  }

  /** Two bars both rose, both fell, or both stayed within the threshold. */
  predicate MovedAlike(p: Params, candles: seq<Candle>, j: nat, k: nat)
    requires p.Valid() && j + p.horizon < |candles| && k + p.horizon < |candles|
  {
    Rises(p, candles, j) == Rises(p, candles, k) && Falls(p, candles, j) == Falls(p, candles, k)
  }

  /** All of the bars 59 to i - horizon moved like the first. */
  ghost predicate AllAlike(p: Params, candles: seq<Candle>, i: nat)
    requires p.Valid() && i < |candles|
  {
    forall k: nat :: START <= k <= i - p.horizon ==> MovedAlike(p, candles, START, k)
  }

  lemma AlikeIff(p: Params, candles: seq<Candle>, i: nat, classes: seq<nat>, k: nat)
    requires p.Valid() && i < |candles| && ClassesFit(p, candles, i, classes) && k < |classes|
    ensures classes[k] == classes[0] <==> MovedAlike(p, candles, START, k + START)
  {
    assert ClassFits(p, candles, 0 + START, classes[0]) && ClassFits(p, candles, k + START, classes[k]);
    OneMove(p, candles, START);
    OneMove(p, candles, k + START);
  }

  lemma OneMove(p: Params, candles: seq<Candle>, b: nat)
    requires p.Valid() && b + p.horizon < |candles|
    ensures !Rises(p, candles, b) || !Falls(p, candles, b)
  {
    if candles[b].close > 0.0 {
      PositiveMove(p.threshold, candles[b].close);
    }
  }

  lemma DistinctIff(p: Params, candles: seq<Candle>, i: nat, classes: seq<nat>)
    requires p.Valid() && i < |candles| && ClassesFit(p, candles, i, classes)
    ensures Distinct(classes) >= 2 <==> !AllAlike(p, candles, i)
  {
    forall k: nat | k < |classes| ensures classes[k] == classes[0] <==> MovedAlike(p, candles, START, k + START) {
      AlikeIff(p, candles, i, classes, k);
    }
    if AllAlike(p, candles, i) {
      AtMostOneClass(classes);
    } else {
      var k: nat :| START <= k <= i - p.horizon && !MovedAlike(p, candles, START, k);
      AlikeIff(p, candles, i, classes, k - START);
      TwoClasses(classes, 0, k - START);
    }
  }

  /** A model can be trained at bar i exactly when enough bars have closed and not all moved alike. */
  lemma ReadyIff(lib: Features.Libm, p: Params, candles: seq<Candle>, i: nat)
    requires p.Valid() && i < |candles|
    ensures WalkForwardRuns.Ready(p, DataOf(lib, p, candles), i)
            <==> i >= p.initialTrain && i - p.horizon >= START && i - p.horizon - START + 1 >= p.minTrainSamples
                 && !AllAlike(p, candles, i)
  {
    if HasHistory(p, i) {
      TrainsOnReturns(lib, p, candles, i);
      DistinctIff(p, candles, i, TrainingSet(p, DataOf(lib, p, candles), i).classes);
    }
  }

  // ------------------------------------------------------------------
  // What a model is fitted on
  // ------------------------------------------------------------------

  lemma {:induction false} CountIsMultiplicity(classes: seq<nat>, c: nat)
    ensures CountOf(classes, c) == multiset(classes)[c]
  {
    if classes != [] {
      var n := |classes| - 1;
      CountIsMultiplicity(classes[..n], c);
      assert classes == classes[..n] + [classes[n]];
    }
  }

  /** The weight of a sample is the sample count over three times the number of samples of its class. */
  lemma WeightOfSample(classes: seq<nat>, k: nat)
    requires k < |classes|
    ensures multiset(classes)[classes[k]] > 0
    ensures Weights(classes)[k] == |classes| as real / (3.0 * multiset(classes)[classes[k]] as real)
  {
    CountIsMultiplicity(classes, classes[k]);
  }

  ghost predicate Balances(classes: seq<nat>, w: seq<real>) {
    |w| == |classes| &&
    forall k :: 0 <= k < |w| ==> w[k] == |classes| as real / (3.0 * multiset(classes)[classes[k]] as real)
  }

  lemma WeightsBalance(classes: seq<nat>)
    ensures Balances(classes, Weights(classes))
  {
    forall k | 0 <= k < |classes|
      ensures Weights(classes)[k] == |classes| as real / (3.0 * multiset(classes)[classes[k]] as real)
    {
      WeightOfSample(classes, k);
    }
  }

  /** The oldest four fifths of the samples, rounded down, and the rest. */
  ghost predicate Holdout<X>(s: Samples<X>, early: Samples<X>, late: Samples<X>) {
    && |early.rows| == |early.classes| && |late.rows| == |late.classes|
    && early.rows + late.rows == s.rows && early.classes + late.classes == s.classes
    && 5 * |early.rows| <= 4 * |s.rows| < 5 * |early.rows| + 5
  }

  lemma CalibratedOnHoldout<X, M>(learner: Learner<X, M>, s: Samples<X>) returns (early: Samples<X>, late: Samples<X>)
    requires |s.rows| == |s.classes|
    ensures Holdout(s, early, late)
    ensures var base := learner.fit(early.rows, early.classes, Weights(s.classes)[..|early.rows|]);
            Calibrated(learner, s)
            == if base.None? then None else learner.calibrated(base.value, late.rows, late.classes)
  {
    var cut := |s.rows| * 4 / 5;
    early, late := Samples(s.rows[..cut], s.classes[..cut]), Samples(s.rows[cut..], s.classes[cut..]);
  }

  /**
   A model is fitted on all samples with balancing weights. With calibration on and at least 200 samples
   it is instead the calibration on the newest fifth of a fit on the oldest four fifths, unless that raises.
   */
  lemma FittedOnSamples<X, M>(learner: Learner<X, M>, p: Params, s: Samples<X>)
    returns (w: seq<real>, early: Samples<X>, late: Samples<X>, plain: Option<M>, calibrated: Option<M>)
    requires |s.rows| == |s.classes|
    ensures Balances(s.classes, w) && Holdout(s, early, late)
    ensures plain == learner.fit(s.rows, s.classes, w)
    ensures var base := learner.fit(early.rows, early.classes, w[..|early.rows|]);
            calibrated == if base.None? then None else learner.calibrated(base.value, late.rows, late.classes)
    ensures Fitted(learner, p, s)
            == if plain.Some? && p.calibrate && |s.rows| >= 200 && calibrated.Some? then calibrated else plain
  {
    w := Weights(s.classes);
    WeightsBalance(s.classes);
    early, late := CalibratedOnHoldout(learner, s);
    plain, calibrated := learner.fit(s.rows, s.classes, w), Calibrated(learner, s);
  }
}
