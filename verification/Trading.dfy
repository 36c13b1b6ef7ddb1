/** The trade lifecycle records: proposal, risk verdict, execution result. */
module Trading {
  import opened Basics

  /** The part of a technical signal that risk and execution read. */
  datatype TechnicalSignal = TechnicalSignal(price: real, timestamp: real, atrPct: Option<real>)

  datatype TradeProposal = TradeProposal(
    id: Id,
    symbol: Symbol,
    side: Side,
    requestedSize: real,
    suggestedStop: Option<real>,
    technical: Option<TechnicalSignal>)

  datatype RejectionReason =
    | CircuitBreakerActive
    | DailyLossLimit
    | TotalDrawdownLimit
    | StaleMarketData
    | DuplicateSignal
    | MaxOpenPositions
    | OrderSizeTooSmall

  datatype RiskDecision = Approved | Modified | Vetoed(reason: RejectionReason)

  datatype RiskAssessment = RiskAssessment(
    proposal: TradeProposal,
    decision: RiskDecision,
    approvedSize: Option<real>)
  {
    predicate IsApproved() {
      !decision.Vetoed?
    }

    /** Python's `approved or requested`: a missing or zero approved size falls back. */
    function EffectiveSize(): real {
      if approvedSize.Some? && approvedSize.value != 0.0 then approvedSize.value
      else proposal.requestedSize
    }
  }

  datatype OrderStatus = Pending | Open | PartiallyFilled | Filled | Cancelled | Rejected | Expired

  /**
   The outcome of an execution attempt. `proposal` is None for the synthetic ids of a close that no
   risk assessment asked for; `realizedPnl` is present on closing fills only.
   */
  datatype ExecutionResult = ExecutionResult(
    id: Id,
    proposal: Option<Id>,
    symbol: Symbol,
    side: Side,
    status: OrderStatus,
    requestedQuantity: real,
    filledQuantity: real,
    price: Option<real>,
    totalCost: Option<real>,
    fee: Option<real>,
    realizedPnl: Option<real>)
  {
    predicate IsFill() {
      (status == Filled || status == PartiallyFilled) && filledQuantity > 0.0
    }

    function Cost(): real {
      (if totalCost.Some? then totalCost.value else 0.0) + (if fee.Some? then fee.value else 0.0)
    }

    function Pnl(): real {
      if realizedPnl.Some? then realizedPnl.value else 0.0
    }
  }
}
