/** Whole runs of the risk agent: conservation, limits, and exactly-once settlement. */
module RiskRuns {
  import opened Basics
  import opened Trading
  import opened RecentIds
  import opened Ledger
  import opened RiskAgent

  datatype Event =
    | Propose(p: TradeProposal, today: Day, now: real)
    | Deliver(r: ExecutionResult)
    | Override

  ghost function Step(cfg: RiskConfig, s: RiskState, e: Event): RiskState {
    match e
    case Propose(p, today, now) => Evaluate(cfg, s, p, today, now).0
    case Deliver(r) => Apply(s, r).0
    case Override => s.(halted := true)
  }

  /** The state after the events, applied in order. */
  ghost function Run(cfg: RiskConfig, s: RiskState, es: seq<Event>): RiskState {
    if es == [] then s else Step(cfg, Run(cfg, s, es[..|es| - 1]), es[|es| - 1])
  }

  ghost predicate Approves(cfg: RiskConfig, s: RiskState, e: Event) {
    e.Propose? && Evaluate(cfg, s, e.p, e.today, e.now).1.IsApproved()
  }

  // ------------------------------------------------------------------
  // Conservation
  // ------------------------------------------------------------------

  /** The PnL an event adds to the portfolio: only a settled close adds any. */
  function AppliedPnl(s: RiskState, e: Event): real {
    if e.Deliver? && Apply(s, e.r).1 == ClosedPosition then e.r.Pnl() else 0.0
  }

  ghost function TotalPnl(cfg: RiskConfig, s: RiskState, es: seq<Event>): real {
    if es == [] then 0.0
    else
      var before := es[..|es| - 1];
      TotalPnl(cfg, s, before) + AppliedPnl(Run(cfg, s, before), es[|es| - 1])
  }

  lemma SettleConserves(p: Portfolio, r: ExecutionResult)
    requires Balanced(p)
    ensures Balanced(Settle(p, r))
    ensures Value(Settle(p, r)) == Value(p) + if ActionOf(p, r) == ClosedPosition then r.Pnl() else 0.0
  {
    match ActionOf(p, r)
    case Released => CloseAddsPnl(p, r.symbol, 0.0);
    case ClosedPosition => CloseAddsPnl(p, r.symbol, r.Pnl());
    case Reconciled => AdjustKeepsValue(p, r.symbol, r.Cost());
    case Adopted => OpenKeepsValue(p, r.symbol, r.Cost(), r.side);
    case _ =>
  }

  /** An evaluation does nothing, resets the day, or also reserves an amount for a symbol that is not open. */
  lemma EvaluateShape(cfg: RiskConfig, s: RiskState, p: TradeProposal, today: Day, now: real)
    returns (size: real)
    ensures var q, reset := Evaluate(cfg, s, p, today, now).0.portfolio, DailyReset(s.portfolio, today);
            || q == s.portfolio || q == reset
            || (p.symbol !in reset.open && |reset.open| < cfg.maxOpen && q == Opened(reset, p.symbol, size, p.side))
  {
    size := Min(p.requestedSize, PositionSize(cfg, Value(s.portfolio), StopLoss(p)));
  }

  lemma EvaluateConserves(cfg: RiskConfig, s: RiskState, p: TradeProposal, today: Day, now: real)
    requires Balanced(s.portfolio)
    ensures var q := Evaluate(cfg, s, p, today, now).0.portfolio;
            Balanced(q) && Value(q) == Value(s.portfolio) && q.initial == s.portfolio.initial
  {
    var size := EvaluateShape(cfg, s, p, today, now);
    var reset := DailyReset(s.portfolio, today);
    if p.symbol !in reset.open {
      OpenKeepsValue(reset, p.symbol, size, p.side);
    }
  }

  lemma StepConserves(cfg: RiskConfig, s: RiskState, e: Event)
    requires Balanced(s.portfolio)
    ensures Balanced(Step(cfg, s, e).portfolio)
    ensures Step(cfg, s, e).portfolio.initial == s.portfolio.initial
    ensures Value(Step(cfg, s, e).portfolio) == Value(s.portfolio) + AppliedPnl(s, e)
  {
    match e
    case Propose(p, today, now) => EvaluateConserves(cfg, s, p, today, now);
    case Deliver(r) => SettleConserves(s.portfolio, r);
    case Override =>
  }

  /** The value moves by exactly the applied PnL, from any balanced state. */
  lemma {:induction false} RunConserves(cfg: RiskConfig, s: RiskState, es: seq<Event>)
    requires Balanced(s.portfolio)
    ensures Balanced(Run(cfg, s, es).portfolio)
    ensures Run(cfg, s, es).portfolio.initial == s.portfolio.initial
    ensures Value(Run(cfg, s, es).portfolio) == Value(s.portfolio) + TotalPnl(cfg, s, es)
  {
    if es != [] {
      var before := es[..|es| - 1];
      RunConserves(cfg, s, before);
      StepConserves(cfg, Run(cfg, s, before), es[|es| - 1]);
    }
  }

  /**
   After any interleaving of evaluations, results and overrides: cash plus open costs is the initial
   balance plus all applied PnL, it is also today's opening value plus today's PnL, and exactly the
   open symbols have a side.
   */
  lemma Conservation(cfg: RiskConfig, balance: real, day: Day, es: seq<Event>)
    ensures var s := Run(cfg, Fresh(balance, day), es);
            && s.portfolio.cash + Total(s.portfolio.open) == balance + TotalPnl(cfg, Fresh(balance, day), es)
            && s.portfolio.cash + Total(s.portfolio.open) == s.portfolio.dailyStart + s.portfolio.dailyPnl
            && s.portfolio.sides.Keys == s.portfolio.open.Keys
            && s.portfolio.initial == balance
  {
    assert Balanced(Initial(balance, day));
    RunConserves(cfg, Fresh(balance, day), es);
  }

  // ------------------------------------------------------------------
  // Limits
  // ------------------------------------------------------------------

  /** What holds at the moment of every approval. */
  ghost predicate WithinLimits(cfg: RiskConfig, s: RiskState, e: Event)
    requires e.Propose?
  {
    var pf := DailyReset(s.portfolio, e.today);
    && s.breaker.None? && !s.halted
    && DailyLoss(pf) < cfg.maxDailyLoss && Drawdown(pf) < cfg.maxDrawdown
    && SignalAge(e.p, e.now) <= cfg.maxStaleness
  }

  /** The cap on an opening size: the caps of the sizer, but never below its floor. */
  ghost function SizeCap(cfg: RiskConfig, s: RiskState, p: TradeProposal): real {
    var value := Value(s.portfolio);
    Max(cfg.minOrder, Min(RawSize(value, StopLoss(p)), Min(PercentCap(cfg, value), cfg.maxOrder)))
  }

  /**
   Every approval, opening or closing, is issued within all limits. A close is sized to the open
   position; an opening is the requested size cut to the cap, and needs a free slot.
   */
  lemma ApprovalIsWithinLimits(cfg: RiskConfig, s: RiskState, e: Event)
    requires Approves(cfg, s, e)
    ensures WithinLimits(cfg, s, e)
    ensures var a := Evaluate(cfg, s, e.p, e.today, e.now).1;
            var held := SideOf(s.portfolio, e.p.symbol);
            if held.Some? then
              held.value != e.p.side && a.approvedSize == Some(s.portfolio.open[e.p.symbol])
              && Step(cfg, s, e).portfolio == DailyReset(s.portfolio, e.today)
            else
              && |s.portfolio.open| < cfg.maxOpen
              && a.approvedSize == Some(Min(e.p.requestedSize, SizeCap(cfg, s, e.p)))
              && Step(cfg, s, e).portfolio
                 == Opened(DailyReset(s.portfolio, e.today), e.p.symbol, a.approvedSize.value, e.p.side)
  {
    var value, stop := Value(s.portfolio), StopLoss(e.p);
    assert PositionSize(cfg, value, stop) == SizeCap(cfg, s, e.p);
  }

  lemma CapIff(request: real, floor: real, raw: real, cap: real, limit: real)
    ensures Min(request, Max(floor, Min(raw, Min(cap, limit)))) > cap <==> request > cap && floor > cap
  {
  }

  /**
   The per-position cap (a fraction of the portfolio) is exceeded exactly when both the request and
   the minimum order are larger than it: the floor is applied after the caps.
   */
  lemma PositionCapExceededIff(cfg: RiskConfig, s: RiskState, e: Event)
    requires Approves(cfg, s, e) && SideOf(s.portfolio, e.p.symbol).None?
    ensures var cap := PercentCap(cfg, Value(s.portfolio));
            Evaluate(cfg, s, e.p, e.today, e.now).1.approvedSize.value > cap
            <==> e.p.requestedSize > cap && cfg.minOrder > cap
  {
    var value := Value(s.portfolio);
    ApprovalIsWithinLimits(cfg, s, e);
    CapIff(e.p.requestedSize, cfg.minOrder, RawSize(value, StopLoss(e.p)), PercentCap(cfg, value), cfg.maxOrder);
  }

  /** The default limits. */
  const DEFAULTS := RiskConfig(0.05, 0.15, 0.02, 3, 10.0, 1000.0, 60.0)

  const SMALL_BUY := TradeProposal(0, "BTC/USDT", Buy, 100.0, None, Some(TechnicalSignal(100.0, 0.0, None)))

  lemma SmallSizes(balance: real)
    requires 0.0 < balance < 500.0
    ensures PercentCap(DEFAULTS, balance) < 10.0 && PositionSize(DEFAULTS, balance, 0.02) == 10.0
  {
    assert RawSize(balance, 0.02) == 0.01 * balance / 0.02;
  }

  lemma AdmitsSmall(s: RiskState, value: real)
    requires s.portfolio.open == map[] && PositionSize(DEFAULTS, value, 0.02) == 10.0
    ensures Admit(DEFAULTS, s, SMALL_BUY, value, 0.0).1 == RiskAssessment(SMALL_BUY, Modified, Some(10.0))
  {
    assert StopLoss(SMALL_BUY) == 0.02;
  }

  lemma ReachesAdmission(cfg: RiskConfig, balance: real, day: Day, p: TradeProposal, now: real)
    requires 0.0 < cfg.maxDailyLoss && 0.0 < cfg.maxDrawdown
    ensures Evaluate(cfg, Fresh(balance, day), p, day, now) == Admit(cfg, Fresh(balance, day), p, balance, now)
  {
    var pf := Initial(balance, day);
    assert Value(pf) == balance && DailyLoss(pf) == 0.0 && Drawdown(pf) == 0.0;
  }

  /** With the default limits any new portfolio of less than 500 USD gets 10 USD approved, above its cap. */
  lemma SmallPortfolioExceedsCap(balance: real, day: Day)
    requires 0.0 < balance < 500.0
    ensures PercentCap(DEFAULTS, Value(Fresh(balance, day).portfolio)) < 10.0
    ensures Evaluate(DEFAULTS, Fresh(balance, day), SMALL_BUY, day, 0.0).1
            == RiskAssessment(SMALL_BUY, Modified, Some(10.0))
  {
    SmallSizes(balance);
    AdmitsSmall(Fresh(balance, day), balance);
    ReachesAdmission(DEFAULTS, balance, day, SMALL_BUY, 0.0);
  }

  /** The minimum-order rejection can never be issued. */
  lemma NeverTooSmall(cfg: RiskConfig, s: RiskState, p: TradeProposal, today: Day, now: real)
    ensures Evaluate(cfg, s, p, today, now).1.decision != Vetoed(OrderSizeTooSmall)
  {
    assert PositionSize(cfg, Value(s.portfolio), StopLoss(p)) >= cfg.minOrder;
  }

  /** An evaluation that finds a breach trips the breaker; no approval is possible from then on. */
  ghost predicate FindsBreach(cfg: RiskConfig, s: RiskState, e: Event) {
    && e.Propose? && s.breaker.None? && !s.halted
    && (DailyLoss(DailyReset(s.portfolio, e.today)) >= cfg.maxDailyLoss
        || Drawdown(s.portfolio) >= cfg.maxDrawdown)
  }

  lemma DrawdownUnaffectedByReset(p: Portfolio, today: Day)
    ensures Drawdown(DailyReset(p, today)) == Drawdown(p)
    ensures Value(DailyReset(p, today)) == Value(p)
  {
  }

  lemma BreachTrips(cfg: RiskConfig, s: RiskState, e: Event)
    requires FindsBreach(cfg, s, e)
    ensures Step(cfg, s, e).breaker.Some? && !Approves(cfg, s, e)
  {
    DrawdownUnaffectedByReset(s.portfolio, e.today);
  }

  lemma {:induction false} BreakerLatches(cfg: RiskConfig, s: RiskState, es: seq<Event>, k: nat)
    requires k <= |es| && Run(cfg, s, es[..k]).breaker.Some?
    ensures Run(cfg, s, es).breaker == Run(cfg, s, es[..k]).breaker
  {
    if k == |es| {
      assert es[..k] == es;
    } else {
      var before := es[..|es| - 1];
      assert before[..k] == es[..k];
      BreakerLatches(cfg, s, before, k);
    }
  }

  /** In any run, once an evaluation finds a limit breached no later evaluation approves. */
  lemma NoApprovalAfterBreach(cfg: RiskConfig, s: RiskState, es: seq<Event>, i: nat, j: nat)
    requires i <= j < |es|
    requires FindsBreach(cfg, Run(cfg, s, es[..i]), es[i])
    ensures !Approves(cfg, Run(cfg, s, es[..j]), es[j])
  {
    BreachTrips(cfg, Run(cfg, s, es[..i]), es[i]);
    if i < j {
      assert es[..i + 1][..i] == es[..i];
      assert es[..j][..i + 1] == es[..i + 1];
      BreakerLatches(cfg, s, es[..j], i + 1);
    }
  }

  /** Tripped or halted, and so refusing every proposal. */
  predicate Stopped(s: RiskState) {
    s.breaker.Some? || s.halted
  }

  lemma StepStaysStopped(cfg: RiskConfig, s: RiskState, e: Event)
    requires Stopped(s)
    ensures Stopped(Step(cfg, s, e)) && !Approves(cfg, s, e)
  {
  }

  /** Nothing the agent does lifts a halt or resets the breaker. */
  lemma {:induction false} StoppedStaysStopped(cfg: RiskConfig, s: RiskState, es: seq<Event>, i: nat, j: nat)
    requires i <= j < |es| && Stopped(Run(cfg, s, es[..i]))
    ensures Stopped(Run(cfg, s, es[..j])) && !Approves(cfg, Run(cfg, s, es[..j]), es[j])
    decreases j
  {
    if i < j {
      StoppedStaysStopped(cfg, s, es, i, j - 1);
      assert es[..j][..j - 1] == es[..j - 1];
      StepStaysStopped(cfg, Run(cfg, s, es[..j - 1]), es[j - 1]);
    }
    StepStaysStopped(cfg, Run(cfg, s, es[..j]), es[j]);
  }

  ghost predicate AdoptsAt(cfg: RiskConfig, s: RiskState, es: seq<Event>, k: nat)
    requires k < |es|
  {
    es[k].Deliver? && Apply(Run(cfg, s, es[..k]), es[k].r).1 == Adopted
  }

  lemma RemovalShrinks(m: map<Symbol, real>, k: Symbol, v: real)
    ensures |m - {k}| <= |m|
    ensures k in m ==> |m[k := v]| == |m|
  {
    assert (m - {k}).Keys == m.Keys - {k};
    if k in m {
      assert m[k := v].Keys == m.Keys;
    }
  }

  lemma SettledCount(p: Portfolio, r: ExecutionResult)
    requires ActionOf(p, r) != Adopted
    ensures |Settle(p, r).open| <= |p.open|
  {
    RemovalShrinks(p.open, r.symbol, r.Cost());
  }

  lemma OpenCountStep(cfg: RiskConfig, s: RiskState, e: Event)
    requires |s.portfolio.open| <= cfg.maxOpen
    requires e.Deliver? ==> Apply(s, e.r).1 != Adopted
    ensures |Step(cfg, s, e).portfolio.open| <= cfg.maxOpen
  {
    match e
    case Propose(p, today, now) => var _ := EvaluateShape(cfg, s, p, today, now);
    case Deliver(r) =>
      if r.id !in s.seen {
        SettledCount(s.portfolio, r);
      }
    case Override =>
  }

  /** Without adopted fills the number of open positions never exceeds the limit. */
  lemma {:induction false} OpenCountBounded(cfg: RiskConfig, s: RiskState, es: seq<Event>)
    requires |s.portfolio.open| <= cfg.maxOpen
    requires forall k :: 0 <= k < |es| ==> !AdoptsAt(cfg, s, es, k)
    ensures |Run(cfg, s, es).portfolio.open| <= cfg.maxOpen
  {
    if es != [] {
      var before, e := es[..|es| - 1], es[|es| - 1];
      forall k | 0 <= k < |before| ensures !AdoptsAt(cfg, s, before, k) {
        assert before[..k] == es[..k];
        assert !AdoptsAt(cfg, s, es, k);
      }
      OpenCountBounded(cfg, s, before);
      assert !AdoptsAt(cfg, s, es, |es| - 1);
      OpenCountStep(cfg, Run(cfg, s, before), e);
    }
  }

  // ------------------------------------------------------------------
  // Exactly-once settlement under bounded memory
  // ------------------------------------------------------------------

  /** The result ids of a run in order of first delivery. */
  function FirstIds(es: seq<Event>): seq<Id> {
    if es == [] then []
    else
      var ids, e := FirstIds(es[..|es| - 1]), es[|es| - 1];
      if e.Deliver? && e.r.id !in ids then ids + [e.r.id] else ids
  }

  /** The run without its redeliveries. */
  function Deduplicated(es: seq<Event>): seq<Event> {
    if es == [] then []
    else
      var before, e := es[..|es| - 1], es[|es| - 1];
      if e.Deliver? && e.r.id in FirstIds(before) then Deduplicated(before) else Deduplicated(before) + [e]
  }

  /** Every redelivery comes after fewer than 1,000 other new results. */
  predicate Timely(es: seq<Event>) {
    forall k :: 0 <= k < |es| && es[k].Deliver? && es[k].r.id in FirstIds(es[..k])
      ==> es[k].r.id in Newest(FirstIds(es[..k]))
  }

  lemma TimelyPrefix(es: seq<Event>, n: nat)
    requires Timely(es) && n <= |es|
    ensures Timely(es[..n])
  {
    forall k | 0 <= k < n && es[k].Deliver? && es[k].r.id in FirstIds(es[..n][..k])
      ensures es[k].r.id in Newest(FirstIds(es[..n][..k]))
    {
      assert es[..n][..k] == es[..k];
    }
  }

  lemma {:induction false} FirstIdsDistinct(es: seq<Event>)
    ensures Distinct(FirstIds(es))
  {
    if es != [] {
      FirstIdsDistinct(es[..|es| - 1]);
    }
  }

  lemma StepSeen(cfg: RiskConfig, s: RiskState, e: Event)
    ensures Step(cfg, s, e).seen == if e.Deliver? then Push(s.seen, e.r.id) else s.seen
  {
  }

  lemma {:induction false} SeenIsNewest(cfg: RiskConfig, s: RiskState, es: seq<Event>)
    requires s.seen == [] && Timely(es)
    ensures Run(cfg, s, es).seen == Newest(FirstIds(es))
  {
    if es != [] {
      var before, e := es[..|es| - 1], es[|es| - 1];
      TimelyPrefix(es, |es| - 1);
      SeenIsNewest(cfg, s, before);
      StepSeen(cfg, Run(cfg, s, before), e);
      if e.Deliver? && e.r.id !in Newest(FirstIds(before)) {
        PushIsNewest(FirstIds(before), e.r.id);
      }
    }
  }

  /** After a timely run a result is skipped exactly when it is one of the last 1,000 applied. */
  lemma SkippedIffRecent(cfg: RiskConfig, s: RiskState, es: seq<Event>, r: ExecutionResult, k: nat)
    requires s.seen == [] && Timely(es)
    requires k < |FirstIds(es)| && FirstIds(es)[k] == r.id
    ensures Apply(Run(cfg, s, es), r).1 == Duplicate <==> |FirstIds(es)| - 1 - k < CAPACITY
    ensures Apply(Run(cfg, s, es), r).1 == Duplicate ==> Apply(Run(cfg, s, es), r).0 == Run(cfg, s, es)
  {
    SeenIsNewest(cfg, s, es);
    FirstIdsDistinct(es);
    AmongNewest(FirstIds(es), k);
  }

  lemma {:induction false} DeduplicatedIds(es: seq<Event>)
    ensures FirstIds(Deduplicated(es)) == FirstIds(es)
    ensures Timely(Deduplicated(es))
  {
    if es != [] {
      var before, e := es[..|es| - 1], es[|es| - 1];
      DeduplicatedIds(before);
      var d := Deduplicated(before);
      if !(e.Deliver? && e.r.id in FirstIds(before)) {
        assert (d + [e])[..|d|] == d;
        forall k | 0 <= k < |d + [e]| && (d + [e])[k].Deliver? && (d + [e])[k].r.id in FirstIds((d + [e])[..k])
          ensures (d + [e])[k].r.id in Newest(FirstIds((d + [e])[..k]))
        {
          if k < |d| {
            assert (d + [e])[..k] == d[..k];
          }
        }
      }
    }
  }

  /** A remembered result changes nothing. */
  lemma SkippedAtEnd(cfg: RiskConfig, s: RiskState, es: seq<Event>, e: Event)
    requires e.Deliver? && e.r.id in Run(cfg, s, es).seen
    ensures Run(cfg, s, es + [e]) == Run(cfg, s, es)
  {
    assert (es + [e])[..|es|] == es;
  }

  lemma SameAtEnd(cfg: RiskConfig, s: RiskState, a: seq<Event>, b: seq<Event>, e: Event)
    requires Run(cfg, s, a) == Run(cfg, s, b)
    ensures Run(cfg, s, a + [e]) == Run(cfg, s, b + [e])
  {
    assert (a + [e])[..|a|] == a && (b + [e])[..|b|] == b;
  }

  lemma TimelyEnd(before: seq<Event>, e: Event)
    requires Timely(before + [e])
    ensures Timely(before)
    ensures e.Deliver? && e.r.id in FirstIds(before) ==> e.r.id in Newest(FirstIds(before))
    ensures Deduplicated(before + [e])
            == if e.Deliver? && e.r.id in FirstIds(before) then Deduplicated(before) else Deduplicated(before) + [e]
  {
    var es := before + [e];
    assert es[..|before|] == before;
    TimelyPrefix(es, |before|);
  }

  /** A run with timely redeliveries ends in the same state as the run without them. */
  lemma {:induction false} ExactlyOnce(cfg: RiskConfig, s: RiskState, es: seq<Event>)
    requires s.seen == [] && Timely(es)
    ensures Run(cfg, s, es) == Run(cfg, s, Deduplicated(es))
  {
    if es != [] {
      var before, e := es[..|es| - 1], es[|es| - 1];
      assert es == before + [e];
      TimelyEnd(before, e);
      ExactlyOnce(cfg, s, before);
      if e.Deliver? && e.r.id in FirstIds(before) {
        SeenIsNewest(cfg, s, before);
        SkippedAtEnd(cfg, s, before, e);
      } else {
        SameAtEnd(cfg, s, before, Deduplicated(before), e);
      }
    }
  }
}
