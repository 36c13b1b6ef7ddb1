/**
 The walk-forward model: retrained on an expanding window of past bars, it predicts forward. Features
 and labels are computed once over the whole series; only the label cutoff keeps the future out.
 */
module WalkForward {
  import opened Basics
  import opened Market
  import opened Series
  import Features
  import FeatureTables
  import Labels
  import Engine

  /** The first bar that has a feature row. */
  const START: nat := Features.MIN_BARS - 1

  datatype Params = Params(
    horizon: int,
    threshold: real,
    initialTrain: int,
    retrainEvery: int,
    minTrainSamples: int,
    directionalThreshold: real,
    calibrate: bool)
  {
    predicate Valid() {
      horizon >= 1 && threshold > 0.0
    }
  }

  /** The predicted probability of each class number. */
  datatype Probabilities = Probabilities(class0: real, class1: real, class2: real)

  /** Training and isotonic calibration (None when it raises) and prediction: any deterministic functions. */
  datatype Learner<!X, !M> = Learner(
    fit: (seq<X>, seq<nat>, seq<real>) -> Option<M>,
    calibrated: (M, seq<X>, seq<nat>) -> Option<M>,
    predict: (M, X) -> Probabilities)

  /** The feature rows of bars 59 onwards and the labels of all bars. */
  datatype Data<X> = Data(rows: seq<X>, labels: seq<Cell>) {
    predicate Aligned() {
      |rows| == if |labels| <= START then 0 else |labels| - START
    }
  }

  datatype Samples<X> = Samples(rows: seq<X>, classes: seq<nat>)

  /** The model in use and the bookkeeping of its training; `raised` once a fit has raised, which ends the run. */
  datatype State<M> = State(model: Option<M>, lastTrain: int, retrains: nat, raised: bool)

  // ------------------------------------------------------------------
  // Training samples
  // ------------------------------------------------------------------

  /** SELL is 0, HOLD is 1, BUY is 2. */
  function ClassOf(l: real): nat {
    if l == -1.0 then 0 else if l == 0.0 then 1 else 2
  }

  /** The rows that have a label, with their classes. */
  function Labelled<X>(rows: seq<X>, labels: seq<Cell>): (s: Samples<X>)
    requires |rows| == |labels|
    ensures |s.rows| == |s.classes|
    decreases |rows|
  {
    if rows == [] then Samples([], [])
    else
      var n := |rows| - 1;
      var rest := Labelled(rows[..n], labels[..n]);
      if labels[n].NaN? then rest else Samples(rest.rows + [rows[n]], rest.classes + [ClassOf(labels[n].v)])
  }

  /** Some bar with a feature row has a label that had closed by bar i. */
  predicate HasHistory(p: Params, i: nat) {
    i - p.horizon - START >= 0
  }

  /** What may be learnt from at bar i: bars 59 to i - horizon. */
  function TrainingSet<X>(p: Params, data: Data<X>, i: nat): (s: Samples<X>)
    requires p.Valid() && data.Aligned() && i < |data.labels| && HasHistory(p, i)
    ensures |s.rows| == |s.classes|
  {
    Labelled(data.rows[..i - p.horizon - START + 1], data.labels[START..i - p.horizon + 1])
  }

  function Distinct(classes: seq<nat>): nat {
    |set c | c in classes|
  }

  predicate Trainable<X>(p: Params, s: Samples<X>) {
    |s.rows| >= p.minTrainSamples && Distinct(s.classes) >= 2
  }

  function CountOf(classes: seq<nat>, c: nat): nat {
    if classes == [] then 0
    else CountOf(classes[..|classes| - 1], c) + if classes[|classes| - 1] == c then 1 else 0
  }

  /** Inverse frequency of a class among all samples. */
  function InverseFrequency(classes: seq<nat>, c: nat): real {
    var count := CountOf(classes, c);
    if count > 0 then |classes| as real / (3.0 * count as real) else 0.0
  }

  function Weights(classes: seq<nat>): (w: seq<real>)
    ensures |w| == |classes|
  {
    seq(|classes|, k requires 0 <= k < |classes| => InverseFrequency(classes, classes[k]))
  }

  /** The calibrated model; None when any step of the calibration raises. */
  function Calibrated<X, M>(learner: Learner<X, M>, s: Samples<X>): Option<M>
    requires |s.rows| == |s.classes|
  {
    var w, cut := Weights(s.classes), |s.rows| * 4 / 5;
    var base := learner.fit(s.rows[..cut], s.classes[..cut], w[..cut]);
    if base.None? then None else learner.calibrated(base.value, s.rows[cut..], s.classes[cut..])
  }

  /** The model of a training set; None when the fit on all of it raises. */
  function Fitted<X, M>(learner: Learner<X, M>, p: Params, s: Samples<X>): Option<M>
    requires |s.rows| == |s.classes|
  {
    var plain := learner.fit(s.rows, s.classes, Weights(s.classes));
    if plain.Some? && p.calibrate && |s.rows| >= 200 && Calibrated(learner, s).Some? then Calibrated(learner, s)
    else plain
  }

  // ------------------------------------------------------------------
  // One bar
  // ------------------------------------------------------------------

  function Retrained<X, M>(learner: Learner<X, M>, p: Params, data: Data<X>, st: State<M>, i: nat): State<M>
    requires p.Valid() && data.Aligned() && i < |data.labels|
  {
    if st.model.Some? && i - st.lastTrain < p.retrainEvery then st
    else if !HasHistory(p, i) then st
    else
      var s := TrainingSet(p, data, i);
      if !Trainable(p, s) then st
      else
        var fitted := Fitted(learner, p, s);
        if fitted.None? then st.(raised := true) else State(fitted, i, st.retrains + 1, false)
  }

  function Advanced<X, M>(learner: Learner<X, M>, p: Params, data: Data<X>, st: State<M>, i: nat): State<M>
    requires p.Valid() && data.Aligned() && i < |data.labels|
  {
    if st.raised || i < p.initialTrain then st else Retrained(learner, p, data, st, i)
  }

  /** The most likely class, if likely enough; ties go to the lower class. */
  function Emitted(p: Params, proba: Probabilities): Option<Side> {
    var (cls, best) :=
      if proba.class0 >= proba.class1 && proba.class0 >= proba.class2 then (0, proba.class0)
      else if proba.class1 >= proba.class2 then (1, proba.class1) else (2, proba.class2);
    if best < p.directionalThreshold then None
    else if cls == 2 then Some(Buy)
    else if cls == 0 then Some(Sell)
    else None
  }

  function Choice<X, M>(learner: Learner<X, M>, p: Params, data: Data<X>, st: State<M>, i: nat): Option<Side>
    requires data.Aligned() && i < |data.labels|
  {
    if i < p.initialTrain || st.model.None? || i < START then None
    else Emitted(p, learner.predict(st.model.value, data.rows[i - START]))
  }

  // ------------------------------------------------------------------
  // A run of decisions
  // ------------------------------------------------------------------

  const NEVER := -1_000_000_000

  /** The state after deciding bars 0 to k - 1. */
  function Before<X, M>(learner: Learner<X, M>, p: Params, data: Data<X>, k: nat): State<M>
    requires p.Valid() && data.Aligned() && k <= |data.labels|
    decreases k
  {
    if k == 0 then State(None, NEVER, 0, false)
    else Advanced(learner, p, data, Before(learner, p, data, k - 1), k - 1)
  }

  function DecisionAt<X, M>(learner: Learner<X, M>, p: Params, data: Data<X>, i: nat): Option<Side>
    requires p.Valid() && data.Aligned() && i < |data.labels|
  {
    Choice(learner, p, data, Before(learner, p, data, i + 1), i)
  }

  function Decider<X, M>(learner: Learner<X, M>, p: Params, data: Data<X>): Engine.Decisions
    requires p.Valid() && data.Aligned()
  {
    (i: nat) => if i < |data.labels| then DecisionAt(learner, p, data, i) else None
  }

  /** Features and labels over the whole series. */
  function DataOf(lib: Features.Libm, p: Params, candles: seq<Candle>): (data: Data<Features.FeatureRow>)
    requires p.Valid()
    ensures data.Aligned() && |data.labels| == |candles|
  {
    var b := Features.ToBars(candles);
    Data(FeatureTables.Matrix(lib, b), Labels.LabelsOf(b.closes, p.horizon, p.threshold))
  }

  // ------------------------------------------------------------------
  // The object and the run
  // ------------------------------------------------------------------

  class WalkForwardModel<!X, !M> {
    const learner: Learner<X, M>
    const wf: Params
    const data: Data<X>
    var model: Option<M>
    var lastTrain: int
    var retrains: nat

    function Now(): State<M>
      reads this
    {
      State(model, lastTrain, retrains, false)
    }

    ghost predicate Valid() {
      wf.Valid() && data.Aligned()
    }

    constructor (learner: Learner<X, M>, wf: Params, data: Data<X>)
      requires wf.Valid() && data.Aligned()
      ensures Valid() && this.learner == learner && this.wf == wf && this.data == data
      ensures Now() == Before(learner, wf, data, 0)
    {
      this.learner, this.wf, this.data := learner, wf, data;
      model, lastTrain, retrains := None, NEVER, 0;
    }

    /** _row_for_bar */
    function RowForBar(bar: nat): (r: Option<nat>)
      requires Valid()
      ensures r.Some? <==> START <= bar < |data.labels|
      ensures r.Some? ==> r.value == bar - START && r.value < |data.rows|
    {
      var r := bar - START;
      if 0 <= r < |data.rows| then Some(r) else None
    }

    /** A fit that raises leaves the object as it was. */
    method MaybeRetrain(i: nat) returns (raised: bool)
      requires Valid() && i < |data.labels|
      modifies this
      ensures raised <==> Retrained(learner, wf, data, old(Now()), i).raised
      ensures Now() == if raised then old(Now()) else Retrained(learner, wf, data, old(Now()), i)
    {
      raised := false;
      if model.Some? && i - lastTrain < wf.retrainEvery {
        return;
      }
      var bMax := i - wf.horizon;
      var lastRow := bMax - START;
      if lastRow < 0 {
        return;
      }
      var s := Labelled(data.rows[..lastRow + 1], data.labels[START..bMax + 1]);
      if |s.rows| < wf.minTrainSamples || Distinct(s.classes) < 2 {
        return;
      }
      var fitted := Fitted(learner, wf, s);
      if fitted.None? {
        return true;
      }
      model := fitted;
      lastTrain := i;
      retrains := retrains + 1;
    }

    method Decide(i: nat) returns (raised: bool, decision: Option<Side>)
      requires Valid() && i < |data.labels|
      modifies this
      ensures raised <==> Advanced(learner, wf, data, old(Now()), i).raised
      ensures Now() == if raised then old(Now()) else Advanced(learner, wf, data, old(Now()), i)
      ensures !raised ==> decision == Choice(learner, wf, data, Now(), i)
    {
      raised, decision := false, None;
      if i < wf.initialTrain {
        return;
      }
      raised := MaybeRetrain(i);
      if raised || model.None? {
        return;
      }
      var r := RowForBar(i);
      if r.None? {
        return;
      }
      decision := Emitted(wf, learner.predict(model.value, data.rows[r.value]));
    }
  }

  /** One bar of the engine's loop with the model's decide as its callback. */
  method ReplayOne<X, M>(replay: Engine.Replay, wfm: WalkForwardModel<X, M>, c: Candle, i: nat, isLast: bool)
    returns (raised: bool)
    requires wfm.Valid() && i < |wfm.data.labels|
    modifies replay, wfm
    ensures raised <==> !isLast && Advanced(wfm.learner, wfm.wf, wfm.data, old(wfm.Now()), i).raised
    ensures !raised ==>
              wfm.Now() == if isLast then old(wfm.Now())
                           else Advanced(wfm.learner, wfm.wf, wfm.data, old(wfm.Now()), i)
    ensures !raised ==>
              var marked := Engine.Bar(replay.cfg, old(replay.Now()), c, i);
              replay.Now() == if isLast then marked
                              else marked.(pending := Choice(wfm.learner, wfm.wf, wfm.data, wfm.Now(), i))
  {
    raised := false;
    replay.ReplayBar(c, i);
    if !isLast {
      var decision;
      raised, decision := wfm.Decide(i);
      replay.pending := decision;
    }
  }

  /** Once a fit has raised nothing is decided any more. */
  lemma {:induction false} RaisedStays<X, M>(learner: Learner<X, M>, p: Params, data: Data<X>, j: nat, k: nat)
    requires p.Valid() && data.Aligned() && j <= k <= |data.labels| && Before(learner, p, data, j).raised
    ensures Before(learner, p, data, k).raised
    decreases k
  {
    if j < k {
      RaisedStays(learner, p, data, j, k - 1);
    }
  }

  lemma AfterStep<X, M>(learner: Learner<X, M>, p: Params, data: Data<X>, cfg: Engine.Config,
      candles: seq<Candle>, i: nat)
    requires p.Valid() && data.Aligned() && |data.labels| == |candles| && i < |candles|
    ensures var decide := Decider(learner, p, data);
            var marked := Engine.Bar(cfg, Engine.After(cfg, candles, decide, i), candles[i], i);
            Engine.After(cfg, candles, decide, i + 1)
            == if i == |candles| - 1 then marked
               else marked.(pending := Choice(learner, p, data, Before(learner, p, data, i + 1), i))
  {
  }

  /** How many decisions a run over the candles asks for. */
  function Asked(candles: seq<Candle>): nat {
    if candles == [] then 0 else |candles| - 1
  }

  /** Engine and model have both done the first i bars. */
  ghost predicate OnTrack<X, M>(learner: Learner<X, M>, p: Params, data: Data<X>, cfg: Engine.Config,
      candles: seq<Candle>, i: nat, replay: Engine.State, model: State<M>)
    requires p.Valid() && data.Aligned() && |data.labels| == |candles| && i <= |candles|
  {
    && replay == Engine.After(cfg, candles, Decider(learner, p, data), i)
    && model == Before(learner, p, data, if i < |candles| || candles == [] then i else i - 1)
  }

  lemma StaysOnTrack<X, M>(learner: Learner<X, M>, p: Params, data: Data<X>, cfg: Engine.Config,
      candles: seq<Candle>, i: nat, replay: Engine.State, model: State<M>)
    requires p.Valid() && data.Aligned() && |data.labels| == |candles| && i < |candles|
    requires OnTrack(learner, p, data, cfg, candles, i, replay, model)
    ensures var isLast := i == |candles| - 1;
            var marked := Engine.Bar(cfg, replay, candles[i], i);
            var next := if isLast then model else Advanced(learner, p, data, model, i);
            if !isLast && next.raised then Before(learner, p, data, Asked(candles)).raised
            else OnTrack(learner, p, data, cfg, candles, i + 1,
                   if isLast then marked else marked.(pending := Choice(learner, p, data, next, i)), next)
  {
    AfterStep(learner, p, data, cfg, candles, i);
    if i < |candles| - 1 && Advanced(learner, p, data, model, i).raised {
      RaisedStays(learner, p, data, i + 1, Asked(candles));
    }
  }

  method Replayed<X, M>(candles: seq<Candle>, cfg: Engine.Config, wfm: WalkForwardModel<X, M>)
    returns (run: Option<Engine.State>)
    requires wfm.Valid() && |wfm.data.labels| == |candles|
    requires wfm.Now() == Before(wfm.learner, wfm.wf, wfm.data, 0)
    modifies wfm
    ensures run.None? <==> Before(wfm.learner, wfm.wf, wfm.data, Asked(candles)).raised
    ensures run.Some? ==>
              && run.value == Engine.Run(cfg, candles, Decider(wfm.learner, wfm.wf, wfm.data))
              && wfm.Now() == Before(wfm.learner, wfm.wf, wfm.data, Asked(candles))
  {
    var replay := new Engine.Replay(cfg);
    for i := 0 to |candles|
      invariant replay.cfg == cfg
      invariant OnTrack(wfm.learner, wfm.wf, wfm.data, cfg, candles, i, replay.Now(), wfm.Now())
    {
      StaysOnTrack(wfm.learner, wfm.wf, wfm.data, cfg, candles, i, replay.Now(), wfm.Now());
      var raised := ReplayOne(replay, wfm, candles[i], i, i == |candles| - 1);
      if raised {
        return None;
      }
    }
    replay.Finish(candles);
    run := Some(replay.Now());
  }

  /** A finished run, or the exception that ended it. */
  datatype WalkForwardResult = BadLabelParameters | FitRaised | Finished(run: Engine.State, retrains: nat)

  /** run_walkforward_ml */
  method RunWalkForward<M>(lib: Features.Libm, learner: Learner<Features.FeatureRow, M>, wf: Params,
      candles: seq<Candle>, cfg: Engine.Config)
    returns (result: WalkForwardResult)
    ensures result == BadLabelParameters <==> !wf.Valid()
    ensures wf.Valid() ==>
              var data := DataOf(lib, wf, candles);
              var last := Before(learner, wf, data, Asked(candles));
              result == if last.raised then FitRaised
                        else Finished(Engine.Run(cfg, candles, Decider(learner, wf, data)), last.retrains)
  {
    var b := Features.ToBars(candles);
    var rows := FeatureTables.BuildFeatureMatrix(lib, b);
    var generator := Labels.LabelGenerator.Create(wf.horizon, wf.threshold);
    if generator.None? {
      return BadLabelParameters;
    }
    var labels := generator.value.Generate(b.closes);
    var wfm := new WalkForwardModel(learner, wf, Data(rows, labels[..]));
    var run := Replayed(candles, cfg, wfm);
    if run.None? {
      return FitRaised;
    }
    result := Finished(run.value, wfm.retrains);
  }
}
