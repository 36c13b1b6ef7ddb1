/** The risk agent's verdicts and sizes in terms of the ledger's own figures. */
module RiskLimits {
  import opened Basics
  import opened Trading
  import opened Ledger
  import opened RiskAgent
  import RiskRuns

  // ------------------------------------------------------------------
  // Loss limits
  // ------------------------------------------------------------------

  /** `lost` is at least the fraction `limit` of `base`, for a base of either sign. */
  predicate Reaches(lost: real, base: real, limit: real) {
    if base == 0.0 then 0.0 >= limit
    else if base > 0.0 then lost >= Times(limit, base)
    else lost <= Times(limit, base)
  }

  lemma QuotientTimes(x: real, base: real)
    requires base != 0.0
    ensures Times(x / base, base) == x
  {
    var q := x / base;
    assert q * base == x;
  }

  lemma TimesOrders(x: real, y: real, base: real)
    ensures base > 0.0 ==> (x >= y <==> Times(x, base) >= Times(y, base))
    ensures base < 0.0 ==> (x >= y <==> Times(x, base) <= Times(y, base))
  {
    var d := x - y;
    assert x * base - y * base == d * base;
    if base > 0.0 {
      PositiveFactor(d, base);
    } else if base < 0.0 {
      PositiveFactor(d, -base);
      assert d * base == -(d * -base);
    }
  }

  lemma PositiveFactor(d: real, f: real)
    requires f > 0.0
    ensures d >= 0.0 <==> d * f >= 0.0
  {
    if d < 0.0 {
      assert (-d) * f > 0.0;
    }
  }

  lemma QuotientReaches(lost: real, base: real, limit: real)
    requires base != 0.0
    ensures lost / base >= limit <==> Reaches(lost, base, limit)
  {
    QuotientTimes(lost, base);
    TimesOrders(lost / base, limit, base);
  }

  /** Today's opening value: what was recorded this morning, or the present value on the day's first look. */
  ghost function StartOf(p: Portfolio, today: Day): real {
    if p.lastReset == today then p.dailyStart else p.cash + Total(p.open)
  }

  /** What has been realised today. */
  function RealisedOn(p: Portfolio, today: Day): real {
    if p.lastReset == today then p.dailyPnl else 0.0
  }

  /** Today's realised loss has reached its limit. */
  ghost predicate LosesToday(cfg: RiskConfig, p: Portfolio, today: Day) {
    Reaches(-RealisedOn(p, today), StartOf(p, today), cfg.maxDailyLoss)
  }

  /** The loss since the start has reached its limit. */
  ghost predicate LosesInTotal(cfg: RiskConfig, p: Portfolio) {
    Reaches(p.initial - (p.cash + Total(p.open)), p.initial, cfg.maxDrawdown)
  }

  lemma DailyLossReaches(cfg: RiskConfig, p: Portfolio, today: Day)
    requires Balanced(p)
    ensures DailyLoss(DailyReset(p, today)) >= cfg.maxDailyLoss <==> LosesToday(cfg, p, today)
  {
    var pf := DailyReset(p, today);
    assert pf.dailyStart == StartOf(p, today) && pf.dailyStart - Value(pf) == -RealisedOn(p, today);
    if pf.dailyStart != 0.0 {
      QuotientReaches(pf.dailyStart - Value(pf), pf.dailyStart, cfg.maxDailyLoss);
    }
  }

  lemma DrawdownReaches(cfg: RiskConfig, p: Portfolio, today: Day)
    ensures Drawdown(DailyReset(p, today)) >= cfg.maxDrawdown <==> LosesInTotal(cfg, p)
  {
    var pf := DailyReset(p, today);
    assert pf.initial == p.initial && Value(pf) == Value(p);
    if p.initial != 0.0 {
      QuotientReaches(p.initial - Value(p), p.initial, cfg.maxDrawdown);
    }
  }

  // ------------------------------------------------------------------
  // The verdict
  // ------------------------------------------------------------------

  /** The signal is older than allowed; without a signal there is no age. */
  predicate IsStale(cfg: RiskConfig, p: TradeProposal, now: real) {
    cfg.maxStaleness < 0.0 || (p.technical.Some? && now - p.technical.value.timestamp > cfg.maxStaleness)
  }

  lemma StaleIff(cfg: RiskConfig, p: TradeProposal, now: real)
    ensures SignalAge(p, now) > cfg.maxStaleness <==> IsStale(cfg, p, now)
  {
  }

  /** The first of the checks that fails, in order; None approves. */
  ghost function Verdict(cfg: RiskConfig, s: RiskState, p: TradeProposal, today: Day, now: real)
    : Option<RejectionReason>
  {
    if s.breaker.Some? || s.halted then Some(CircuitBreakerActive)
    else if LosesToday(cfg, s.portfolio, today) then Some(DailyLossLimit)
    else if LosesInTotal(cfg, s.portfolio) then Some(TotalDrawdownLimit)
    else if IsStale(cfg, p, now) then Some(StaleMarketData)
    else if p.symbol in s.portfolio.open then
      if p.symbol in s.portfolio.sides && s.portfolio.sides[p.symbol] == p.side then Some(DuplicateSignal) else None
    else if |s.portfolio.open| >= cfg.maxOpen then Some(MaxOpenPositions)
    else None
  }

  /**
   A proposal is vetoed exactly for the first check its ledger fails: breaker or halt, today's realised
   loss against today's opening value, the loss since the start against the initial balance, staleness,
   a position on the same side, no free slot. A loss limit also trips the breaker, for that reason.
   */
  lemma VetoedIff(cfg: RiskConfig, s: RiskState, p: TradeProposal, today: Day, now: real)
    requires Balanced(s.portfolio)
    ensures var (s', a) := Evaluate(cfg, s, p, today, now);
            var verdict := Verdict(cfg, s, p, today, now);
            && (if verdict.Some? then a == RiskAssessment(p, Vetoed(verdict.value), None) else a.IsApproved())
            && s'.breaker == (if s.breaker.Some? then s.breaker
                              else if verdict == Some(DailyLossLimit) then Some(DailyLossBreach)
                              else if verdict == Some(TotalDrawdownLimit) then Some(DrawdownBreach)
                              else None)
  {
    DailyLossReaches(cfg, s.portfolio, today);
    DrawdownReaches(cfg, s.portfolio, today);
    StaleIff(cfg, p, now);
    SizeIsAtLeastMinimum(cfg, Value(s.portfolio), StopLoss(p));
  }

  lemma SizeIsAtLeastMinimum(cfg: RiskConfig, value: real, stop: real)
    ensures PositionSize(cfg, value, stop) >= cfg.minOrder
  {
  }

  /** The first evaluation of a day opens it at the present value with nothing realised; later ones keep both. */
  lemma DayIsOpened(cfg: RiskConfig, s: RiskState, p: TradeProposal, today: Day, now: real)
    requires s.breaker.None? && !s.halted
    ensures var q := Evaluate(cfg, s, p, today, now).0.portfolio;
            && q.lastReset == today && q.dailyStart == StartOf(s.portfolio, today)
            && q.dailyPnl == RealisedOn(s.portfolio, today) && q.initial == s.portfolio.initial
  {
  }

  /** In any run, once an evaluation finds either loss at its limit no later evaluation approves. */
  lemma LossEndsApprovals(cfg: RiskConfig, balance: real, day: Day, es: seq<RiskRuns.Event>, i: nat, j: nat)
    requires i <= j < |es| && es[i].Propose?
    requires var s := RiskRuns.Run(cfg, Fresh(balance, day), es[..i]);
             LosesToday(cfg, s.portfolio, es[i].today) || LosesInTotal(cfg, s.portfolio)
    ensures !RiskRuns.Approves(cfg, RiskRuns.Run(cfg, Fresh(balance, day), es[..j]), es[j])
  {
    var s := RiskRuns.Run(cfg, Fresh(balance, day), es[..i]);
    assert Balanced(Initial(balance, day));
    RiskRuns.RunConserves(cfg, Fresh(balance, day), es[..i]);
    DailyLossReaches(cfg, s.portfolio, es[i].today);
    DrawdownReaches(cfg, s.portfolio, es[i].today);
    RiskRuns.DrawdownUnaffectedByReset(s.portfolio, es[i].today);
    if RiskRuns.FindsBreach(cfg, s, es[i]) {
      RiskRuns.NoApprovalAfterBreach(cfg, Fresh(balance, day), es, i, j);
    } else {
      RiskRuns.StoppedStaysStopped(cfg, Fresh(balance, day), es, i, j);
    }
  }

  // ------------------------------------------------------------------
  // The size
  // ------------------------------------------------------------------

  /** At most the minimum order, or within the risk budget of 1% of the value and both caps. */
  predicate Allowed(cfg: RiskConfig, value: real, stop: real, size: real) {
    || size <= cfg.minOrder
    || (Times(size, Max(stop, 0.005)) <= 0.01 * value && size <= Times(cfg.maxPositionPct, value)
        && size <= cfg.maxOrder)
  }

  lemma RiskBudget(value: real, stop: real, size: real)
    ensures size <= RawSize(value, stop) <==> Times(size, Max(stop, 0.005)) <= 0.01 * value
  {
    QuotientTimes(0.01 * value, Max(stop, 0.005));
    TimesOrders(RawSize(value, stop), size, Max(stop, 0.005));
  }

  lemma SizeIffAllowed(cfg: RiskConfig, value: real, stop: real, size: real)
    ensures size <= PositionSize(cfg, value, stop) <==> Allowed(cfg, value, stop, size)
  {
    RiskBudget(value, stop, size);
    assert PercentCap(cfg, value) == Times(cfg.maxPositionPct, value);
  }

  /**
   A position is opened at the largest allowed size that does not exceed the request: no more than 1% of
   the portfolio is at risk at its stop, up to the minimum order. It is called approved exactly when
   nothing was cut.
   */
  lemma OpeningIsLargestAllowed(cfg: RiskConfig, s: RiskState, p: TradeProposal, today: Day, now: real, other: real)
    requires p.symbol !in s.portfolio.open && Evaluate(cfg, s, p, today, now).1.IsApproved()
    ensures var a := Evaluate(cfg, s, p, today, now).1;
            var value := s.portfolio.cash + Total(s.portfolio.open);
            && a.approvedSize.Some? && a.approvedSize.value <= p.requestedSize
            && Allowed(cfg, value, StopLoss(p), a.approvedSize.value)
            && (other <= p.requestedSize && Allowed(cfg, value, StopLoss(p), other) ==> other <= a.approvedSize.value)
            && (a.decision == Approved <==> a.approvedSize.value == p.requestedSize)
  {
    var size := OpeningSize(cfg, s, p, today, now);
    var value := s.portfolio.cash + Total(s.portfolio.open);
    SizeIffAllowed(cfg, value, StopLoss(p), size);
    SizeIffAllowed(cfg, value, StopLoss(p), other);
    SizeIffAllowed(cfg, value, StopLoss(p), Min(size, p.requestedSize));
  }

  lemma AdmittedSize(cfg: RiskConfig, s: RiskState, p: TradeProposal, value: real, now: real)
    requires p.symbol !in s.portfolio.open && Admit(cfg, s, p, value, now).1.IsApproved()
    ensures var a, size := Admit(cfg, s, p, value, now).1, PositionSize(cfg, value, StopLoss(p));
            && a.approvedSize == Some(Min(size, p.requestedSize))
            && (a.decision == Approved <==> size >= p.requestedSize)
  {
  }

  lemma OpeningSize(cfg: RiskConfig, s: RiskState, p: TradeProposal, today: Day, now: real) returns (size: real)
    requires p.symbol !in s.portfolio.open && Evaluate(cfg, s, p, today, now).1.IsApproved()
    ensures size == PositionSize(cfg, s.portfolio.cash + Total(s.portfolio.open), StopLoss(p))
    ensures var a := Evaluate(cfg, s, p, today, now).1;
            && a.approvedSize == Some(Min(size, p.requestedSize))
            && (a.decision == Approved <==> size >= p.requestedSize)
  {
    var reset := s.(portfolio := DailyReset(s.portfolio, today));
    AdmittedSize(cfg, reset, p, Value(s.portfolio), now);
    size := PositionSize(cfg, Value(s.portfolio), StopLoss(p));
  }

  /** A close is approved at the cost of the position, in full. */
  lemma CloseIsApprovedAtCost(cfg: RiskConfig, s: RiskState, p: TradeProposal, today: Day, now: real)
    requires p.symbol in s.portfolio.open && Evaluate(cfg, s, p, today, now).1.IsApproved()
    ensures Evaluate(cfg, s, p, today, now).1 == RiskAssessment(p, Approved, Some(s.portfolio.open[p.symbol]))
  {
  }
}
