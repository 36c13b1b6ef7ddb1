/** The execution agent: routes approved assessments to the broker and publishes what happened. */
module ExecutionAgent {
  import opened Basics
  import opened Trading
  import opened PaperBroker

  // ------------------------------------------------------------------
  // Specification
  // ------------------------------------------------------------------

  /** The rejected result published when placing an order raises. */
  function Failure(a: RiskAssessment, rid: Id): ExecutionResult {
    ExecutionResult(
      rid, Some(a.proposal.id), a.proposal.symbol, a.proposal.side, Rejected, 0.0, 0.0,
      None, None, None, None)
  }

  /** One assessment: what it does to the broker and which results it publishes. */
  function Execute(b: BrokerState, a: RiskAssessment, rid: Id, draw: FillDraw): (BrokerState, seq<ExecutionResult>) {
    if !a.IsApproved() then (b, [])
    else
      var (b', o) := PlaceOrder(b, a, rid, draw);
      match o
      case Done(r) => (b', [r])
      case Raised(_) => (b, [Failure(a, rid)])
  }

  /** The price move of a position as a fraction of its entry, positive in its favour. */
  function MoveInFavour(pos: Position, price: real): real
    requires pos.entryPrice > 0.0
  {
    if pos.side == Buy then (price - pos.entryPrice) / pos.entryPrice
    else (pos.entryPrice - price) / pos.entryPrice
  }

  predicate Breaches(pos: Position, price: real, stopLoss: real, takeProfit: real) {
    pos.entryPrice > 0.0 && price > 0.0 &&
    (MoveInFavour(pos, price) <= -stopLoss || MoveInFavour(pos, price) >= takeProfit)
  }

  /** The stop-loss price and the take-profit price of a position. */
  function StopPrice(side: Side, entry: real, stopLoss: real): real {
    if side == Buy then entry - Times(stopLoss, entry) else entry + Times(stopLoss, entry)
  }

  function TargetPrice(side: Side, entry: real, takeProfit: real): real {
    if side == Buy then entry + Times(takeProfit, entry) else entry - Times(takeProfit, entry)
  }

  lemma QuotientOrder(x: real, entry: real, t: real)
    requires entry > 0.0
    ensures x / entry <= t <==> x <= Times(t, entry)
    ensures x / entry >= t <==> x >= Times(t, entry)
  {
    var q := x / entry;
    assert q * entry == x;
    TimesOrder(q, t, entry);
    TimesOrder(t, q, entry);
  }

  lemma TimesOrder(a: real, b: real, f: real)
    requires f > 0.0
    ensures a <= b <==> Times(a, f) <= Times(b, f)
  {
    if a <= b {
      assert (b - a) * f >= 0.0;
    } else {
      assert (a - b) * f > 0.0;
    }
  }

  /**
   A long is closed at or below its stop price and at or above its target price, a short at or above
   its stop price and at or below its target price; never on a price or entry that is not positive.
   */
  lemma BreachesIff(pos: Position, price: real, stopLoss: real, takeProfit: real)
    ensures var stop, target := StopPrice(pos.side, pos.entryPrice, stopLoss),
                                TargetPrice(pos.side, pos.entryPrice, takeProfit);
            Breaches(pos, price, stopLoss, takeProfit)
            <==> pos.entryPrice > 0.0 && price > 0.0 &&
                 if pos.side == Buy then price <= stop || price >= target else price >= stop || price <= target
  {
    var entry := pos.entryPrice;
    if entry > 0.0 {
      var moved := if pos.side == Buy then price - entry else entry - price;
      QuotientOrder(moved, entry, -stopLoss);
      QuotientOrder(moved, entry, takeProfit);
      assert Times(-stopLoss, entry) == -Times(stopLoss, entry);
    }
  }

  function Published(r: Option<ExecutionResult>): seq<ExecutionResult> {
    if r.Some? then [r.value] else []
  }

  // ------------------------------------------------------------------
  // The agent object
  // ------------------------------------------------------------------

  class ExecutionAgent {
    const broker: PaperBroker
    var halted: bool
    var outbox: seq<ExecutionResult>

    ghost predicate Valid()
      reads this, broker
    {
      CacheConsistent(broker.State())
    }

    constructor (broker: PaperBroker)
      requires CacheConsistent(broker.State())
      ensures Valid() && this.broker == broker && !halted && outbox == []
    {
      this.broker := broker;
      halted, outbox := false, [];
    }

    /** One turn of the run loop. While halted an approved assessment is dropped without a result. */
    method HandleAssessment(a: RiskAssessment, rid: Id, draw: FillDraw)
      requires Valid() && draw.InRange()
      modifies this`outbox, broker
      ensures var (b', rs) := if halted then (old(broker.State()), []) else Execute(old(broker.State()), a, rid, draw);
              broker.State() == b' && outbox == old(outbox) + rs
    {
      if halted || !a.IsApproved() {
        return;
      }
      var o := broker.PlaceOrderFor(a, rid, draw);
      match o
      case Raised(_) => outbox := outbox + [Failure(a, rid)];
      case Done(r) => outbox := outbox + [r];
    }

    /** Stop-loss / take-profit check of one snapshot position against the latest price. */
    method CheckAndMaybeClose(symbol: Symbol, pos: Position, price: real, stopLoss: real, takeProfit: real, rid: Id)
      modifies this`outbox, broker
      ensures !Breaches(pos, price, stopLoss, takeProfit) ==>
                broker.State() == old(broker.State()) && outbox == old(outbox)
      ensures Breaches(pos, price, stopLoss, takeProfit) ==>
                var (b', r) := ClosePosition(old(broker.State()), symbol, Some(price), rid);
                broker.State() == b' && outbox == old(outbox) + Published(r)
    {
      if pos.entryPrice <= 0.0 || price <= 0.0 {
        return;
      }
      var move := MoveInFavour(pos, price);
      if -stopLoss < move < takeProfit {
        return;
      }
      var r := broker.ClosePositionAt(symbol, Some(price), rid);
      if r.Some? {
        outbox := outbox + [r.value];
      }
    }
  }
}
