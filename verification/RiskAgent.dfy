/** The risk agent: approval pipeline, result reconciliation and latching breaker. */
module RiskAgent {
  import opened Basics
  import opened Trading
  import opened RecentIds
  import opened Ledger

  // ------------------------------------------------------------------
  // Position sizing
  // ------------------------------------------------------------------

  const MIN_STOP_LOSS: real := 0.005
  const ATR_STOP_MULTIPLIER: real := 1.5
  const RISK_PER_TRADE: real := 0.01

  datatype RiskConfig = RiskConfig(
    maxDailyLoss: real,
    maxDrawdown: real,
    maxPositionPct: real,
    maxOpen: int,
    minOrder: real,
    maxOrder: real,
    maxStaleness: real)

  /** The stop distance: ATR first, then the proposal's own, then 2%. */
  function StopLoss(p: TradeProposal): (stop: real)
    ensures stop > 0.0
  {
    if p.technical.Some? && p.technical.value.atrPct.Some? && p.technical.value.atrPct.value > 0.0 then
      p.technical.value.atrPct.value * ATR_STOP_MULTIPLIER
    else if p.suggestedStop.Some? && p.suggestedStop.value > 0.0 then p.suggestedStop.value
    else 0.02
  }

  predicate HasAtr(p: TradeProposal) {
    p.technical.Some? && p.technical.value.atrPct.Some? && p.technical.value.atrPct.value > 0.0
  }

  predicate HasSuggestion(p: TradeProposal) {
    p.suggestedStop.Some? && p.suggestedStop.value > 0.0
  }

  /**
   An ATR decides the stop whatever is suggested, a suggestion decides it when there is no ATR, and
   nothing else is ever read.
   */
  lemma StopPriority(p: TradeProposal, q: TradeProposal)
    ensures HasAtr(p) && p.technical == q.technical ==>
              StopLoss(p) == StopLoss(q) == 1.5 * p.technical.value.atrPct.value
    ensures !HasAtr(p) && !HasAtr(q) && p.suggestedStop == q.suggestedStop ==>
              StopLoss(p) == StopLoss(q) == if HasSuggestion(p) then p.suggestedStop.value else 0.02
  {
  }

  function RawSize(value: real, stop: real): real {
    RISK_PER_TRADE * value / Max(stop, MIN_STOP_LOSS)
  }

  /** The largest position as a fraction of the portfolio. */
  function PercentCap(cfg: RiskConfig, value: real): real {
    cfg.maxPositionPct * value
  }

  /** Upper caps first, then the lower floor. */
  function PositionSize(cfg: RiskConfig, value: real, stop: real): real {
    Max(Min(Min(RawSize(value, stop), PercentCap(cfg, value)), cfg.maxOrder), cfg.minOrder)
  }

  // ------------------------------------------------------------------
  // Specification of the agent
  // ------------------------------------------------------------------

  datatype HaltReason = DailyLossBreach | DrawdownBreach

  /** `breaker` is the first trip reason; `halted` is the flag the override listener maintains. */
  datatype RiskState = RiskState(
    portfolio: Portfolio,
    breaker: Option<HaltReason>,
    halted: bool,
    seen: seq<Id>)

  datatype Action = Duplicate | Released | Ignored | ClosedPosition | Reconciled | Adopted

  function Fresh(balance: real, today: Day): RiskState {
    RiskState(Initial(balance, today), None, false, [])
  }

  function Trip(s: RiskState, reason: HaltReason): RiskState {
    if s.breaker.Some? then s else s.(breaker := Some(reason))
  }

  function Veto(p: TradeProposal, reason: RejectionReason): RiskAssessment {
    RiskAssessment(p, Vetoed(reason), None)
  }

  function SignalAge(p: TradeProposal, now: real): real {
    if p.technical.None? then 0.0 else Max(0.0, now - p.technical.value.timestamp)
  }

  /** Checks 5 to 10, once the system-level halts have passed. */
  ghost function Admit(cfg: RiskConfig, s: RiskState, p: TradeProposal, value: real, now: real):
    (RiskState, RiskAssessment)
  {
    var held := SideOf(s.portfolio, p.symbol);
    if SignalAge(p, now) > cfg.maxStaleness then (s, Veto(p, StaleMarketData))
    else if held == Some(p.side) then (s, Veto(p, DuplicateSignal))
    else if held.Some? then (s, RiskAssessment(p, Approved, Some(s.portfolio.open[p.symbol])))
    else if |s.portfolio.open| >= cfg.maxOpen then (s, Veto(p, MaxOpenPositions))
    else
      var size := PositionSize(cfg, value, StopLoss(p));
      if size < cfg.minOrder then (s, Veto(p, OrderSizeTooSmall))
      else
        var approved := if size >= p.requestedSize then p.requestedSize else size;
        var decision := if size >= p.requestedSize then Approved else Modified;
        (s.(portfolio := Opened(s.portfolio, p.symbol, approved, p.side)),
         RiskAssessment(p, decision, Some(approved)))
  }

  /** _evaluate: the ten checks in order. The value used for sizing is read before the daily reset. */
  ghost function Evaluate(cfg: RiskConfig, s: RiskState, p: TradeProposal, today: Day, now: real):
    (RiskState, RiskAssessment)
  {
    if s.breaker.Some? || s.halted then (s, Veto(p, CircuitBreakerActive))
    else
      var s1 := s.(portfolio := DailyReset(s.portfolio, today));
      if DailyLoss(s1.portfolio) >= cfg.maxDailyLoss then (Trip(s1, DailyLossBreach), Veto(p, DailyLossLimit))
      else if Drawdown(s1.portfolio) >= cfg.maxDrawdown then (Trip(s1, DrawdownBreach), Veto(p, TotalDrawdownLimit))
      else Admit(cfg, s1, p, Value(s.portfolio), now)
  }

  function ActionOf(p: Portfolio, r: ExecutionResult): Action {
    var held := SideOf(p, r.symbol);
    if !r.IsFill() then if held == Some(r.side) then Released else Ignored
    else if held.Some? && held.value != r.side then ClosedPosition
    else if held.Some? then Reconciled
    else Adopted
  }

  function Settle(p: Portfolio, r: ExecutionResult): Portfolio {
    match ActionOf(p, r)
    case Released => Closed(p, r.symbol, 0.0)
    case ClosedPosition => Closed(p, r.symbol, r.Pnl())
    case Reconciled => Adjusted(p, r.symbol, r.Cost())
    case Adopted => Opened(p, r.symbol, r.Cost(), r.side)
    case _ => p
  }

  /** _apply_execution_result: at-most-once by result id, then settle. */
  function Apply(s: RiskState, r: ExecutionResult): (RiskState, Action) {
    if r.id in s.seen then (s, Duplicate)
    else (s.(seen := Push(s.seen, r.id), portfolio := Settle(s.portfolio, r)), ActionOf(s.portfolio, r))
  }

  // ------------------------------------------------------------------
  // The agent object
  // ------------------------------------------------------------------

  /** Latching breaker: the first reason is kept until a human resets it. */
  class CircuitBreaker {
    var tripped: bool
    var reason: Option<HaltReason>

    ghost predicate Valid()
      reads this
    {
      tripped <==> reason.Some?
    }

    constructor ()
      ensures Valid() && !tripped
    {
      tripped, reason := false, None;
    }

    method TripFor(why: HaltReason)
      requires Valid()
      modifies this
      ensures Valid() && tripped
      ensures reason == if old(tripped) then old(reason) else Some(why)
    {
      if !tripped {
        tripped, reason := true, Some(why);
      }
    }

    method Reset()
      modifies this
      ensures Valid() && !tripped
    {
      tripped, reason := false, None;
    }
  }

  class RiskAgent {
    const cfg: RiskConfig
    const drawdown: DrawdownMonitor
    const breaker: CircuitBreaker
    var halted: bool
    var seen: seq<Id>

    function State(): RiskState
      reads this, drawdown, breaker
    {
      RiskState(drawdown.State(), breaker.reason, halted, seen)
    }

    ghost predicate Valid()
      reads this, drawdown, breaker
    {
      breaker.Valid() && |seen| <= CAPACITY &&
      drawdown.maxDailyLoss == cfg.maxDailyLoss && drawdown.maxDrawdown == cfg.maxDrawdown
    }

    constructor (cfg: RiskConfig, balance: real, today: Day)
      ensures Valid() && State() == Fresh(balance, today) && this.cfg == cfg
      ensures fresh(drawdown) && fresh(breaker)
    {
      this.cfg := cfg;
      drawdown := new DrawdownMonitor(balance, cfg.maxDailyLoss, cfg.maxDrawdown, today);
      breaker := new CircuitBreaker();
      halted, seen := false, [];
    }

    method ApplyExecutionResult(r: ExecutionResult) returns (action: Action)
      requires Valid()
      modifies this`seen, drawdown
      ensures Valid() && (State(), action) == Apply(old(State()), r)
    {
      if r.id in seen {
        return Duplicate;
      }
      seen := seen + [r.id];
      if |seen| > CAPACITY {
        seen := seen[1..];
      }
      var held := SideOf(drawdown.State(), r.symbol);
      if !r.IsFill() {
        if held == Some(r.side) {
          drawdown.ClosePosition(r.symbol, 0.0);
          return Released;
        }
        return Ignored;
      }
      if held.Some? && held.value != r.side {
        var pnl := if r.realizedPnl.Some? then r.realizedPnl.value else 0.0;
        drawdown.ClosePosition(r.symbol, pnl);
        return ClosedPosition;
      }
      var actual := r.Cost();
      if held == Some(r.side) {
        drawdown.AdjustPositionCost(r.symbol, actual);
        return Reconciled;
      }
      drawdown.OpenPosition(r.symbol, actual, r.side);
      return Adopted;
    }

    method EvaluateProposal(p: TradeProposal, today: Day, now: real) returns (a: RiskAssessment)
      requires Valid()
      modifies drawdown, breaker
      ensures Valid() && (State(), a) == Evaluate(cfg, old(State()), p, today, now)
    {
      var value := drawdown.PortfolioValue();
      if breaker.tripped || halted {
        return Veto(p, CircuitBreakerActive);
      }
      var lossBreached := drawdown.DailyLossLimitBreached(today);
      if lossBreached {
        breaker.TripFor(DailyLossBreach);
        return Veto(p, DailyLossLimit);
      }
      var drawdownBreached := drawdown.TotalDrawdownLimitBreached();
      if drawdownBreached {
        breaker.TripFor(DrawdownBreach);
        return Veto(p, TotalDrawdownLimit);
      }
      if SignalAge(p, now) > cfg.maxStaleness {
        return Veto(p, StaleMarketData);
      }
      var held := SideOf(drawdown.State(), p.symbol);
      if held.Some? {
        if held.value == p.side {
          return Veto(p, DuplicateSignal);
        }
        return RiskAssessment(p, Approved, Some(drawdown.openPositions[p.symbol]));
      }
      if |drawdown.openPositions| >= cfg.maxOpen {
        return Veto(p, MaxOpenPositions);
      }
      var size := PositionSize(cfg, value, StopLoss(p));
      if size < cfg.minOrder {
        return Veto(p, OrderSizeTooSmall);
      }
      var decision := Modified;
      if size >= p.requestedSize {
        decision, size := Approved, p.requestedSize;
      }
      drawdown.OpenPosition(p.symbol, size, p.side);
      return RiskAssessment(p, decision, Some(size));
    }

    /** The override listener raises the halt flag; nothing lowers it while the agent lives. */
    method Halt()
      modifies this`halted
      ensures State() == old(State()).(halted := true)
    {
      halted := true;
    }
  }
}
