/**
 Why the scheduling hypothesis of the protocol is needed: a run in which a symbol is proposed again
 while an earlier close is still awaiting execution. Nothing is lost and nobody is halted, and yet
 the ledger ends up holding a position the broker does not have.
 */
module OverlapCounterexample {
  import opened Basics
  import opened Money
  import opened Trading
  import opened Ledger
  import opened RiskAgent
  import opened PaperBroker
  import opened ExecutionAgent
  import opened Protocol
  import RiskRuns
  import Events = BrokerRuns

  /** The default risk limits. */
  const CONFIG := RiskRuns.DEFAULTS

  const BTC: Symbol := "BTC/USDT"

  function Order(id: Id, side: Side): TradeProposal {
    TradeProposal(id, BTC, side, 100.0, None, Some(TechnicalSignal(100.0, 0.0, None)))
  }

  const OPEN_LONG := Propose(Order(0, Buy), 0, 0.0)
  const CLOSE_LONG := Propose(Order(1, Sell), 0, 0.0)
  const REOPEN := Propose(Order(2, Buy), 0, 0.0)
  const STOP := MonitorClose(BTC, Some(100.0))
  const EXECUTE := ExecuteHead(FullFill)

  /** Losses far from any limit, ample cash, only the one symbol, identifiers as they should be. */
  ghost predicate Healthy(y: System) {
    var p := y.risk.portfolio;
    && Valid(y.broker) && y.broker.cash >= 9000.0 && y.broker.positions.Keys <= {BTC} && IdsInOrder(y)
    && Balanced(p) && p.open.Keys <= {BTC} && p.initial == 10000.0 && p.dailyStart == 10000.0
    && p.lastReset == 0 && p.dailyPnl >= -200.0 && y.risk.breaker.None? && !y.risk.halted
  }

  /** What a step of the execution side leaves alone. */
  ghost predicate SameBooks(y: System, z: System) {
    z.used == y.used && z.risk.portfolio.dailyPnl == y.risk.portfolio.dailyPnl
  }

  ghost predicate At(y: System, v: View, pending: seq<RiskAssessment>, results: seq<ExecutionResult>, w: View) {
    && Healthy(y) && y.pending == pending && y.results == results
    && LedgerView(y.risk.portfolio, BTC) == v && BrokerView(y.broker, BTC) == w
  }

  /** A flat symbol is opened at the requested size, a held one is closed at its cost. */
  lemma Admits(s: RiskState, id: Id, side: Side)
    requires Balanced(s.portfolio) && s.breaker.None? && !s.halted && s.portfolio.lastReset == 0
    requires s.portfolio.initial == 10000.0 && s.portfolio.dailyStart == 10000.0
    requires s.portfolio.dailyPnl >= -200.0 && s.portfolio.open.Keys <= {BTC}
    ensures var (s', a) := Evaluate(CONFIG, s, Order(id, side), 0, 0.0);
            if BTC !in s.portfolio.open then
              a == RiskAssessment(Order(id, side), Approved, Some(100.0))
              && s' == s.(portfolio := Opened(s.portfolio, BTC, 100.0, side))
            else s.portfolio.sides[BTC] != side ==>
              a == RiskAssessment(Order(id, side), Approved, Some(s.portfolio.open[BTC])) && s' == s
  {
    var value := Value(s.portfolio);
    assert value >= 9800.0;
    assert DailyLoss(s.portfolio) == (10000.0 - value) / 10000.0;
    assert RawSize(value, 0.02) == 0.01 * value / 0.02;
    assert PositionSize(CONFIG, value, 0.02) >= 100.0;
    if BTC !in s.portfolio.open {
      assert s.portfolio.open.Keys == {};
    }
  }

  lemma ProposeOpen(y: System, id: Id, side: Side, pending: seq<RiskAssessment>, w: View)
    returns (a: RiskAssessment)
    requires At(y, Flat, pending, [], w) && id !in y.used
    ensures a == RiskAssessment(Order(id, side), Approved, Some(100.0))
    ensures var z := Next(CONFIG, y, Propose(Order(id, side), 0, 0.0));
            At(z, Held(side, 100.0), pending + [a], [], w)
            && SameBooks(y.(used := y.used + {id}), z) && z.broker == y.broker
  {
    a := RiskAssessment(Order(id, side), Approved, Some(100.0));
    Admits(y.risk, id, side);
    OpenKeepsValue(y.risk.portfolio, BTC, 100.0, side);
  }

  lemma ProposeClose(y: System, id: Id, cost: real, w: View)
    returns (a: RiskAssessment)
    requires At(y, Held(Buy, cost), [], [], w) && id !in y.used
    ensures a == RiskAssessment(Order(id, Sell), Approved, Some(cost))
    ensures var z := Next(CONFIG, y, Propose(Order(id, Sell), 0, 0.0));
            At(z, Held(Buy, cost), [a], [], w)
            && SameBooks(y.(used := y.used + {id}), z) && z.broker == y.broker
  {
    a := RiskAssessment(Order(id, Sell), Approved, Some(cost));
    Admits(y.risk, id, Sell);
  }

  lemma Deliver(y: System, v: View, pending: seq<RiskAssessment>, r: ExecutionResult, w: View)
    requires At(y, v, pending, [r], w) && r.symbol == BTC && r.Pnl() >= -200.0 - y.risk.portfolio.dailyPnl
    ensures var z := Next(CONFIG, y, DeliverHead);
            At(z, Delivered(v, r), pending, [], w) && z.used == y.used && z.broker == y.broker
            && z.risk.portfolio.dailyPnl == y.risk.portfolio.dailyPnl
               + if r.IsFill() && v.Held? && v.side != r.side then r.Pnl() else 0.0
  {
    DeliverIds(CONFIG, y);
    SettleView(y.risk.portfolio, r, BTC);
    RiskRuns.SettleConserves(y.risk.portfolio, r);
  }

  lemma QuotientBound(size: real, price: real)
    requires size > 0.0 && price > 0.0
    ensures size - price * 0.00000001 <= Times(Down8(size / price), price) <= size
  {
    var q := Down8(size / price);
    Down8Nonnegative(size / price);
    Events.TimesMonotone(price, q, size / price);
    assert size / price - 0.00000001 <= q;
    Events.TimesMonotone(price, size / price - 0.00000001, q);
    assert size / price * price == size;
    assert Times(price, q) == Times(q, price);
  }

  /** With a flat broker the order opens, and it costs little more than its size. */
  lemma Opens(b: BrokerState, a: RiskAssessment, rid: Id)
    requires Valid(b) && b.cash >= 9000.0 && BTC !in b.positions
    requires a.proposal.symbol == BTC && a.proposal.technical == Some(TechnicalSignal(100.0, 0.0, None))
    requires a.proposal.id !in b.filled && a.IsApproved() && 1.0 <= a.EffectiveSize() <= 200.0
    ensures var (b', o) := PlaceOrder(b, a, rid, FullFill);
            o.Done? && b'.cash >= b.cash - 201.0
            && a.EffectiveSize() - 0.1 <= o.result.Cost() <= a.EffectiveSize() + 0.2
  {
    var price, size := EntryPrice(a.proposal.side, 100.0), a.EffectiveSize();
    assert 100.0 * (1.0 + SLIPPAGE) == 100.05 && 100.0 * (1.0 - SLIPPAGE) == 99.95;
    assert Trunc(10005000000.0) == 10005000000 && Trunc(9995000000.0) == 9995000000;
    assert price == if a.proposal.side == Buy then 100.05 else 99.95;
    var qty := RequestedQuantity(size, price);
    assert size / price >= 0.009;
    Down8Monotone(0.009, size / price);
    assert Trunc(900000.0) == 900000;
    assert qty > 0.0;
    QuotientBound(size, price);
    FeeNonnegative(Times(qty, price));
    assert size - 0.1 <= Times(qty, price) <= size;
  }

  /** Executing an assessment on a flat broker opens its side, whatever the ledger expects. */
  lemma ExecuteOpens(y: System, v: View, a: RiskAssessment, rest: seq<RiskAssessment>)
    returns (r: ExecutionResult)
    requires At(y, v, [a] + rest, [], Flat) && y.broker.cash >= 9300.0
    requires a.IsApproved() && 1.0 <= a.EffectiveSize() <= 200.0
    requires a.proposal.symbol == BTC && a.proposal.technical == Some(TechnicalSignal(100.0, 0.0, None))
    ensures var z := Next(CONFIG, y, EXECUTE);
            At(z, v, rest, [r], Held(a.proposal.side, r.Cost())) && SameBooks(y, z)
            && z.broker.cash >= y.broker.cash - 201.0
    ensures r.IsFill() && r.symbol == BTC && r.side == a.proposal.side && r.realizedPnl == None
    ensures a.EffectiveSize() - 0.1 <= r.Cost() <= a.EffectiveSize() + 0.2
  {
    var z := Next(CONFIG, y, EXECUTE);
    assert y.pending[0] == a && a in y.pending;
    Opens(y.broker, a, y.nextResult);
    ExecuteView(y.broker, a, y.nextResult, FullFill);
    PlaceOrderKeepsValid(y.broker, a, y.nextResult, FullFill);
    r := z.results[0];
    PublishKeepsIds(y, z, r);
    forall t ensures t != BTC ==> t !in z.broker.positions {
      if t != BTC {
        assert BrokerView(z.broker, t) == BrokerView(y.broker, t);
      }
    }
  }

  lemma MonitorCloses(y: System, v: View, pending: seq<RiskAssessment>, cost: real)
    returns (r: ExecutionResult)
    requires At(y, v, pending, [], Held(Buy, cost)) && y.broker.cash >= 9300.0
    ensures var z := Next(CONFIG, y, STOP);
            At(z, v, pending, [r], Flat) && SameBooks(y, z) && z.broker.cash >= y.broker.cash
    ensures r.IsFill() && r.symbol == BTC && r.side == Sell && r.Pnl() >= -cost - 0.005
  {
    var z := Next(CONFIG, y, STOP);
    var pos := y.broker.positions[BTC];
    r := z.results[0];
    SpreadIsAdverse(100.0);
    Events.TimesMonotone(pos.quantity, 0.0, SellFill(100.0));
    FeeNonnegative(Times(pos.quantity, SellFill(100.0)));
    RoundCentsError(CashReturned(pos, 100.0) - pos.cost);
    ClosePositionKeepsValid(y.broker, BTC, Some(100.0), y.nextResult);
    PublishKeepsIds(y, z, r);
  }

  /** The late order meets the short the stale close opened and closes it. */
  lemma LateOrderCloses(y: System, a: RiskAssessment, cost: real)
    returns (r: ExecutionResult)
    requires At(y, Flat, [a], [], Held(Sell, cost)) && a.IsApproved() && a.proposal.side == Buy
    requires a.proposal.symbol == BTC && a.proposal.technical == Some(TechnicalSignal(100.0, 0.0, None))
    ensures var z := Next(CONFIG, y, EXECUTE);
            z.pending == [] && z.results == [r] && z.risk == y.risk && IdsInOrder(z) && BrokerView(z.broker, BTC).Flat?
    ensures r.IsFill() && r.symbol == BTC && r.side == Buy && Executes(a, Held(Sell, cost), r, Flat)
  {
    var z := Next(CONFIG, y, EXECUTE);
    r := z.results[0];
    assert y.pending[0] == a && a in y.pending;
    ExecuteView(y.broker, a, y.nextResult, FullFill);
    PublishKeepsIds(y, z, r);
    assert PlaceOrder(y.broker, a, y.nextResult, FullFill).1.Done?;
  }

  /** Its fill is adopted as a long. */
  lemma LateOrderIsAdopted(y: System, a: RiskAssessment, cost: real)
    requires At(y, Flat, [a], [], Held(Sell, cost)) && a.IsApproved() && a.proposal.side == Buy
    requires a.proposal.symbol == BTC && a.proposal.technical == Some(TechnicalSignal(100.0, 0.0, None))
    ensures var z := Next(CONFIG, y, EXECUTE);
            z.results != [] && var x := Next(CONFIG, z, DeliverHead);
            && x.pending == [] && x.results == []
            && LedgerView(x.risk.portfolio, BTC).Held? && BrokerView(x.broker, BTC).Flat?
  {
    var r := LateOrderCloses(y, a, cost);
    var z := Next(CONFIG, y, EXECUTE);
    DeliverIds(CONFIG, z);
    SettleView(z.risk.portfolio, r, BTC);
  }

  lemma DropReserved(y: System, a: RiskAssessment)
    requires At(y, Held(a.proposal.side, 100.0), [a], [], Flat) && a.IsApproved() && a.proposal.symbol == BTC
    ensures Reserved(y, a)
    ensures var z := Next(CONFIG, y, SkipHead);
            z.pending == [] && z.results == [] && z.risk == y.risk && z.broker == y.broker
  {
  }

  /** A reserved order dropped while halted: both channels are empty, and only the ledger holds a position. */
  lemma DroppedReservationDiverges()
    ensures var y := Next(CONFIG, Start(10000.0, 0), OPEN_LONG);
            && y.pending != [] && Reserved(y, y.pending[0])
            && var z := Next(CONFIG, y, SkipHead);
               z.pending == [] && z.results == []
               && LedgerView(z.risk.portfolio, BTC) == Held(Buy, 100.0) && BrokerView(z.broker, BTC).Flat?
  {
    var open := ProposeOpen(Start(10000.0, 0), 0, Buy, [], Flat);
    assert [] + [open] == [open];
    DropReserved(Next(CONFIG, Start(10000.0, 0), OPEN_LONG), open);
  }

  lemma OpenLong()
    returns (y: System, cost: real)
    ensures var y1 := Next(CONFIG, Start(10000.0, 0), OPEN_LONG);
            y1.pending != [] && var y2 := Next(CONFIG, y1, EXECUTE);
            y2.results != [] && y == Next(CONFIG, y2, DeliverHead)
    ensures 99.0 <= cost <= 101.0 && At(y, Held(Buy, cost), [], [], Held(Buy, cost))
    ensures y.broker.cash >= 9700.0 && y.used == {0} && y.risk.portfolio.dailyPnl == 0.0
  {
    var y0 := Start(10000.0, 0);
    var open := ProposeOpen(y0, 0, Buy, [], Flat);
    var y1 := Next(CONFIG, y0, OPEN_LONG);
    assert [] + [open] == [open] + [];
    var fill := ExecuteOpens(y1, Held(Buy, 100.0), open, []);
    cost := fill.Cost();
    var y2 := Next(CONFIG, y1, EXECUTE);
    Deliver(y2, Held(Buy, 100.0), [], fill, Held(Buy, cost));
    y := Next(CONFIG, y2, DeliverHead);
  }

  lemma StopBehindClose(y4: System, close: RiskAssessment)
    returns (y: System)
    requires var cost := close.EffectiveSize();
             cost <= 101.0 && At(y4, Held(Buy, cost), [close], [], Held(Buy, cost))
    requires y4.broker.cash >= 9700.0 && y4.used == {0, 1} && y4.risk.portfolio.dailyPnl == 0.0
    ensures var y5 := Next(CONFIG, y4, STOP);
            y5.results != [] && y == Next(CONFIG, y5, DeliverHead)
    ensures At(y, Flat, [close], [], Flat) && y.used == {0, 1}
    ensures y.broker.cash >= 9700.0 && y.risk.portfolio.dailyPnl >= -101.005
  {
    var cost := close.EffectiveSize();
    var stop := MonitorCloses(y4, Held(Buy, cost), [close], cost);
    var y5 := Next(CONFIG, y4, STOP);
    Deliver(y5, Held(Buy, cost), [close], stop, Flat);
    y := Next(CONFIG, y5, DeliverHead);
  }

  lemma StopAndReopen(y4: System, close: RiskAssessment)
    returns (y: System, late: RiskAssessment)
    requires var cost := close.EffectiveSize();
             cost <= 101.0 && At(y4, Held(Buy, cost), [close], [], Held(Buy, cost))
    requires close.IsApproved() && close.proposal.symbol == BTC
    requires y4.broker.cash >= 9700.0 && y4.used == {0, 1} && y4.risk.portfolio.dailyPnl == 0.0
    ensures var y5 := Next(CONFIG, y4, STOP);
            y5.results != [] && var y6 := Next(CONFIG, y5, DeliverHead);
            !Settled(y6, BTC) && y == Next(CONFIG, y6, REOPEN)
    ensures late == RiskAssessment(Order(2, Buy), Approved, Some(100.0))
    ensures At(y, Held(Buy, 100.0), [close, late], [], Flat)
    ensures y.broker.cash >= 9700.0 && y.risk.portfolio.dailyPnl >= -101.005
  {
    var y6 := StopBehindClose(y4, close);
    AwaitingHead(y6.pending, BTC);
    late := ProposeOpen(y6, 2, Buy, [close], Flat);
    y := Next(CONFIG, y6, REOPEN);
  }

  lemma StaleCloseDiverges(y7: System, close: RiskAssessment, late: RiskAssessment)
    requires close == RiskAssessment(Order(1, Sell), Approved, Some(close.EffectiveSize()))
    requires 1.0 <= close.EffectiveSize() <= 101.0
    requires late == RiskAssessment(Order(2, Buy), Approved, Some(100.0))
    requires At(y7, Held(Buy, 100.0), [close, late], [], Flat)
    requires y7.broker.cash >= 9700.0 && y7.risk.portfolio.dailyPnl >= -101.005
    ensures var y8 := Next(CONFIG, y7, EXECUTE);
            y8.results != [] && var y9 := Next(CONFIG, y8, DeliverHead);
            y9.pending != [] && var y10 := Next(CONFIG, y9, EXECUTE);
            y10.results != [] && var y11 := Next(CONFIG, y10, DeliverHead);
            && y11.pending == [] && y11.results == []
            && LedgerView(y11.risk.portfolio, BTC).Held? && BrokerView(y11.broker, BTC).Flat?
  {
    assert [close] + [late] == [close, late];
    var short := ExecuteOpens(y7, Held(Buy, 100.0), close, [late]);
    var y8 := Next(CONFIG, y7, EXECUTE);
    Deliver(y8, Held(Buy, 100.0), [late], short, Held(Sell, short.Cost()));
    LateOrderIsAdopted(Next(CONFIG, y8, DeliverHead), late, short.Cost());
  }

  /**
   Open a long; approve its close; the stop-loss closes it first; approve a new long before the stale
   close has run. The stale close opens a short, whose fill the ledger books as closing the new long;
   the new order then closes that short, and the ledger adopts a long that does not exist.
   */
  lemma OverlapBreaksAgreement()
    ensures var y1 := Next(CONFIG, Start(10000.0, 0), OPEN_LONG);
            y1.pending != [] && var y2 := Next(CONFIG, y1, EXECUTE);
            y2.results != [] && var y4 := Next(CONFIG, Next(CONFIG, y2, DeliverHead), CLOSE_LONG);
            var y5 := Next(CONFIG, y4, STOP);
            y5.results != [] && var y6 := Next(CONFIG, y5, DeliverHead);
            !Settled(y6, BTC) && var y8 := Next(CONFIG, Next(CONFIG, y6, REOPEN), EXECUTE);
            y8.results != [] && var y9 := Next(CONFIG, y8, DeliverHead);
            y9.pending != [] && var y10 := Next(CONFIG, y9, EXECUTE);
            y10.results != [] && var y11 := Next(CONFIG, y10, DeliverHead);
            && y11.pending == [] && y11.results == []
            && LedgerView(y11.risk.portfolio, BTC).Held? && BrokerView(y11.broker, BTC).Flat?
  {
    var y3, cost := OpenLong();
    var close := ProposeClose(y3, 1, cost, Held(Buy, cost));
    var y4 := Next(CONFIG, y3, CLOSE_LONG);
    var y7, late := StopAndReopen(y4, close);
    StaleCloseDiverges(y7, close, late);
  }
}
