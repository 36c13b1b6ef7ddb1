/**
 What an order costs and what a close pays, in terms of the reference price and the approved size: the
 spread is 0.05% each way, the fee 0.1%, prices and quantities truncate to eight decimals.
 */
module BrokerFills {
  import opened Basics
  import opened Money
  import opened Trading
  import opened Ledger
  import opened RiskAgent
  import opened PaperBroker
  import RiskRuns

  // ------------------------------------------------------------------
  // Prices and quantities
  // ------------------------------------------------------------------

  /** The price is the reference moved by 0.05% against the trade, less than 1e-8 of it truncated. */
  predicate SlippedPrice(side: Side, ref: real, price: real) {
    if side == Buy then 1.0005 * ref - 0.00000001 < price <= 1.0005 * ref
    else 0.9995 * ref - 0.00000001 < price <= 0.9995 * ref
  }

  /** A thousandth of the notional, less than a cent of it truncated. */
  predicate TakerFee(notional: real, fee: real) {
    0.0 <= fee <= 0.001 * notional < fee + 0.01
  }

  lemma FillsAreSlipped(ref: real)
    requires ref > 0.0
    ensures SlippedPrice(Buy, ref, BuyFill(ref)) && SlippedPrice(Sell, ref, SellFill(ref))
  {
    var _ := Down8Truncates(ref * (1.0 + SLIPPAGE));
    var _ := Down8Truncates(ref * (1.0 - SLIPPAGE));
    assert ref * (1.0 + SLIPPAGE) == 1.0005 * ref && ref * (1.0 - SLIPPAGE) == 0.9995 * ref;
  }

  lemma FeeIsTaken(notional: real)
    requires notional >= 0.0
    ensures TakerFee(notional, Fee(notional))
  {
    var _ := FeeTruncates(notional);
  }

  lemma ScaleOrder(x: real, y: real, p: real)
    requires p > 0.0
    ensures x <= y ==> Times(x, p) <= Times(y, p)
    ensures x < y ==> Times(x, p) < Times(y, p)
  {
    if x < y {
      assert (y - x) * p > 0.0;
    }
  }

  /** The quantity spends the size up to the price of one hundred-millionth of a unit. */
  lemma QuantitySpends(size: real, price: real)
    requires size > 0.0 && price > 0.0
    ensures var q := RequestedQuantity(size, price);
            size - 0.00000001 * price < Times(q, price) <= size && (q <= 0.0 <==> size < 0.00000001 * price)
  {
    var exact, q := size / price, RequestedQuantity(size, price);
    QuotientTimes(size, price);
    var k := Down8Truncates(exact);
    Hundredths(exact, q, k);
    QuantityBounds(size, price, exact, q);
  }

  lemma QuotientTimes(size: real, price: real)
    requires size > 0.0 && price > 0.0
    ensures Times(size / price, price) == size && size / price > 0.0
  {
    var x := size / price;
    assert x * price == size;
  }

  lemma QuantityBounds(size: real, price: real, exact: real, q: real)
    requires price > 0.0 && Times(exact, price) == size && q <= exact < q + 0.00000001
    ensures size - 0.00000001 * price < Times(q, price) <= size
    ensures exact < 0.00000001 <==> size < 0.00000001 * price
  {
    ScaleOrder(q, exact, price);
    ScaleOrder(exact, q + 0.00000001, price);
    assert Times(q + 0.00000001, price) == Times(q, price) + 0.00000001 * price;
    ScaleOrder(exact, 0.00000001, price);
    ScaleOrder(0.00000001, exact, price);
  }

  lemma Hundredths(exact: real, q: real, k: int)
    requires q * 100000000.0 == k as real && 0.0 <= q <= exact < q + 0.00000001
    ensures q <= 0.0 <==> exact < 0.00000001
  {
  }

  // ------------------------------------------------------------------
  // Opening
  // ------------------------------------------------------------------

  /** What the source calls the effective size, spelled out. */
  predicate Spends(a: RiskAssessment, size: real) {
    size == if a.approvedSize.Some? && a.approvedSize.value != 0.0 then a.approvedSize.value
            else a.proposal.requestedSize
  }

  /** An accepted order on a flat symbol, field by field. */
  lemma OpeningFields(b: BrokerState, a: RiskAssessment, rid: Id, draw: FillDraw)
    returns (price: real, requested: real, q: real)
    requires a.proposal.id !in b.filled && a.proposal.symbol !in b.positions
    requires PlaceOrder(b, a, rid, draw).1.Done?
    ensures a.proposal.technical.Some? && a.proposal.technical.value.price > 0.0 && a.EffectiveSize() > 0.0
    ensures price == EntryPrice(a.proposal.side, a.proposal.technical.value.price) != 0.0
    ensures requested == RequestedQuantity(a.EffectiveSize(), price) > 0.0
    ensures var (b', o) := PlaceOrder(b, a, rid, draw);
            var p, notional, fee := a.proposal, Times(q, price), Fee(Times(q, price));
            && FillQuantity(requested, draw) == (q, o.result.status)
            && o.result == ExecutionResult(rid, Some(p.id), p.symbol, p.side, o.result.status, requested, q,
                             Some(price), Some(notional), Some(fee), None)
            && b'.cash == b.cash - (notional + fee) && notional + fee <= b.cash
            && b'.positions == b.positions[p.symbol := Position(p.side, q, price, notional + fee)]
  {
    price := EntryPrice(a.proposal.side, a.proposal.technical.value.price);
    requested := RequestedQuantity(a.EffectiveSize(), price);
    q := FillQuantity(requested, draw).0;
  }

  /**
   An accepted order on a flat symbol spends the approved size, or the requested one when nothing was
   approved, whatever the decision was called: at the slipped price it asks for the size less at most one
   hundred-millionth of a unit, fills no more than it asks for, and takes notional and fee from cash.
   */
  lemma OpeningSpends(b: BrokerState, a: RiskAssessment, rid: Id, draw: FillDraw, size: real)
    returns (price: real, requested: real, q: real, fee: real)
    requires a.proposal.id !in b.filled && a.proposal.symbol !in b.positions && draw.InRange() && Spends(a, size)
    requires PlaceOrder(b, a, rid, draw).1.Done?
    ensures a.proposal.technical.Some? && price > 0.0 && size > 0.0
    ensures SlippedPrice(a.proposal.side, a.proposal.technical.value.price, price)
    ensures size - 0.00000001 * price < Times(requested, price) <= size
    ensures 0.0 < q <= requested && Times(q, price) <= size && TakerFee(Times(q, price), fee)
    ensures var (b', o) := PlaceOrder(b, a, rid, draw);
            var p, notional := a.proposal, Times(q, price);
            && (if o.result.status == Filled then q == requested
                else o.result.status == PartiallyFilled && draw.PartialFill? && q < requested)
            && o.result == ExecutionResult(rid, Some(p.id), p.symbol, p.side, o.result.status, requested, q,
                             Some(price), Some(notional), Some(fee), None)
            && b'.cash == b.cash - (notional + fee) && notional + fee <= b.cash
            && b'.positions == b.positions[p.symbol := Position(p.side, q, price, notional + fee)]
  {
    price, requested, q := OpeningFields(b, a, rid, draw);
    fee := Fee(Times(q, price));
    PriceIsSlipped(a.proposal.side, a.proposal.technical.value.price);
    QuantitySpends(size, price);
    FillWithinRequest(requested, draw);
    FillStatus(requested, draw);
    ScaleOrder(q, requested, price);
    PositiveNotional(q, price);
    FeeIsTaken(Times(q, price));
  }

  lemma PriceIsSlipped(side: Side, ref: real)
    requires ref > 0.0
    ensures EntryPrice(side, ref) >= 0.0 && SlippedPrice(side, ref, EntryPrice(side, ref))
    ensures ExitPrice(side, ref) >= 0.0 && SlippedPrice(side.Opposite(), ref, ExitPrice(side, ref))
  {
    FillsAreSlipped(ref);
    SpreadIsAdverse(ref);
  }

  lemma FillStatus(requested: real, draw: FillDraw)
    ensures var (q, status) := FillQuantity(requested, draw);
            if status == Filled then q == requested else status == PartiallyFilled && draw.PartialFill?
  {
  }

  lemma PositiveNotional(q: real, price: real)
    requires q > 0.0 && price > 0.0
    ensures Times(q, price) > 0.0
  {
  }

  /** A partial fill is the drawn share of the request, truncated; a share that truncates to nothing fills all. */
  lemma PartialFillShare(requested: real, ratio: real)
    requires requested > 0.0 && 0.60 <= ratio <= 0.99
    ensures var (q, status) := FillQuantity(requested, PartialFill(ratio));
            if status == PartiallyFilled then ratio * requested - 0.00000001 < q <= ratio * requested
            else q == requested && ratio * requested < 0.00000001
  {
    ProperFraction(requested, ratio);
    var k := Down8Truncates(Times(requested, ratio));
    Hundredths(Times(requested, ratio), Down8(Times(requested, ratio)), k);
    assert Times(requested, ratio) == ratio * requested;
  }

  /** Exactly when an order is refused. The cost of a fill is its notional and fee, as above. */
  lemma RefusedIff(b: BrokerState, a: RiskAssessment, rid: Id, draw: FillDraw, size: real)
    requires a.proposal.id !in b.filled && Spends(a, size)
    ensures var p := a.proposal;
            PlaceOrder(b, a, rid, draw).1.Raised? <==>
              || p.technical.None? || p.technical.value.price <= 0.0
              || if p.symbol in b.positions then b.positions[p.symbol].side == p.side
                 else
                   var price := EntryPrice(p.side, p.technical.value.price);
                   || size <= 0.0 || price == 0.0 || size < 0.00000001 * price
                   || NewPosition(p.side, FillQuantity(RequestedQuantity(size, price), draw).0, price).cost > b.cash
  {
    var p := a.proposal;
    if p.technical.Some? && p.technical.value.price > 0.0 && size > 0.0 {
      var price := EntryPrice(p.side, p.technical.value.price);
      PriceIsSlipped(p.side, p.technical.value.price);
      if price > 0.0 {
        QuantitySpends(size, price);
      }
    }
  }

  // ------------------------------------------------------------------
  // Closing
  // ------------------------------------------------------------------

  /**
   Closing pays the slipped reference less the fee; a short gets its cost back with the move in price. The
   reference is the given price when it is positive and the entry price otherwise.
   */
  lemma ClosingPays(b: BrokerState, symbol: Symbol, price: Option<real>, rid: Id, ref: real)
    returns (exit: real, fee: real, realized: real)
    requires symbol in b.positions && Sound(b.positions[symbol])
    requires ref == if price.Some? && price.value > 0.0 then price.value else b.positions[symbol].entryPrice
    ensures var pos := b.positions[symbol];
            SlippedPrice(pos.side.Opposite(), ref, exit) && exit >= 0.0 && TakerFee(Times(pos.quantity, exit), fee)
    ensures var pos := b.positions[symbol];
            var (b', closed) := ClosePosition(b, symbol, price, rid);
            && closed == Some(ExecutionResult(
                 rid, None, symbol, pos.side.Opposite(), Filled, pos.quantity, pos.quantity,
                 Some(exit), Some(Times(pos.quantity, exit)), Some(fee), Some(realized)))
            && b'.positions == b.positions - {symbol}
            && b'.cash - b.cash == (if pos.side == Buy then Times(pos.quantity, exit) - fee
                                    else pos.cost + Times(pos.entryPrice - exit, pos.quantity) - fee)
            && -0.005 <= realized - (b'.cash - b.cash - pos.cost) <= 0.005
  {
    var pos := b.positions[symbol];
    exit := ExitPrice(pos.side, ref);
    fee := Fee(Times(pos.quantity, exit));
    realized := RoundCents(CashReturned(pos, ref) - pos.cost);
    PriceIsSlipped(pos.side, ref);
    NonnegativeNotional(pos.quantity, exit);
    FeeIsTaken(Times(pos.quantity, exit));
    RoundCentsError(CashReturned(pos, ref) - pos.cost);
    Swapped(pos.quantity, pos.entryPrice - exit);
  }

  lemma Swapped(x: real, y: real)
    ensures Times(x, y) == Times(y, x)
  {
  }

  lemma NonnegativeNotional(q: real, price: real)
    requires q > 0.0 && price >= 0.0
    ensures Times(q, price) >= 0.0
  {
  }

  /** An order against the position closes it like the monitor would at its reference price, and is remembered. */
  lemma OppositeOrderCloses(b: BrokerState, a: RiskAssessment, rid: Id, draw: FillDraw)
    requires a.proposal.id !in b.filled && a.proposal.symbol in b.positions
    requires a.proposal.side != b.positions[a.proposal.symbol].side
    requires a.proposal.technical.Some? && a.proposal.technical.value.price > 0.0
    ensures var p := a.proposal;
            var (b', o) := PlaceOrder(b, a, rid, draw);
            var (c, closed) := ClosePosition(b, p.symbol, Some(p.technical.value.price), rid);
            && o.Done? && b'.cash == c.cash && b'.positions == c.positions
            && o.result == closed.value.(proposal := Some(p.id)) && o.result.side == p.side
  {
  }

  // ------------------------------------------------------------------
  // Risk and broker together
  // ------------------------------------------------------------------

  /** What risk approves for a flat symbol it reserves, and the broker spends no more before the fee. */
  lemma ReservationCoversNotional(cfg: RiskConfig, s: RiskState, p: TradeProposal, today: Day, now: real,
      b: BrokerState, rid: Id, draw: FillDraw)
    returns (x: real, price: real, notional: real)
    requires SideOf(s.portfolio, p.symbol).None? && p.id !in b.filled && p.symbol !in b.positions && draw.InRange()
    requires var a := Evaluate(cfg, s, p, today, now).1;
             && a.IsApproved() && a.approvedSize.Some? && a.approvedSize.value > 0.0
             && PlaceOrder(b, a, rid, draw).1.Done?
    ensures var (s', a) := Evaluate(cfg, s, p, today, now);
            var r := PlaceOrder(b, a, rid, draw).1.result;
            && a.approvedSize == Some(x) && p.symbol in s'.portfolio.open && s'.portfolio.open[p.symbol] == x
            && r.totalCost == Some(notional) && r.price == Some(price) && notional <= x
            && (r.status == Filled ==> notional > x - 0.00000001 * price)
  {
    var a := Evaluate(cfg, s, p, today, now).1;
    ReservesApproved(cfg, s, p, today, now);
    x := a.approvedSize.value;
    assert a.proposal == p;
    var requested, q, fee;
    price, requested, q, fee := OpeningSpends(b, a, rid, draw, x);
    notional := Times(q, price);
  }

  lemma ReservesApproved(cfg: RiskConfig, s: RiskState, p: TradeProposal, today: Day, now: real)
    requires SideOf(s.portfolio, p.symbol).None? && Evaluate(cfg, s, p, today, now).1.IsApproved()
    ensures var (s', a) := Evaluate(cfg, s, p, today, now);
            && a.proposal == p && a.approvedSize.Some?
            && p.symbol in s'.portfolio.open && s'.portfolio.open[p.symbol] == a.approvedSize.value
  {
    RiskRuns.ApprovalIsWithinLimits(cfg, s, RiskRuns.Propose(p, today, now));
  }
}
