/**
 Whole runs of the broker: any sequence of orders and monitor closes. Three results: equity cannot
 grow at constant prices, the audit fold against the cash change, and at-most-once filling.
 */
module BrokerRuns {
  import opened Basics
  import opened Money
  import opened Trading
  import opened RecentIds
  import opened PaperBroker

  datatype Event =
    | Order(a: RiskAssessment, rid: Id, draw: FillDraw)
    | CloseAt(symbol: Symbol, price: Option<real>, rid: Id)

  function Step(b: BrokerState, e: Event): BrokerState {
    match e
    case Order(a, rid, draw) => PlaceOrder(b, a, rid, draw).0
    case CloseAt(symbol, price, rid) => ClosePosition(b, symbol, price, rid).0
  }

  /** The fills an event adds: none when it raises, is a no-op or answers from the cache. */
  function NewFills(b: BrokerState, e: Event): seq<ExecutionResult> {
    match e
    case Order(a, rid, draw) =>
      var o := PlaceOrder(b, a, rid, draw).1;
      if a.proposal.id !in b.filled && o.Done? then [o.result] else []
    case CloseAt(symbol, price, rid) =>
      var r := ClosePosition(b, symbol, price, rid).1;
      if r.Some? then [r.value] else []
  }

  function Run(b: BrokerState, es: seq<Event>): BrokerState
    decreases es
  {
    if es == [] then b else Run(Step(b, es[0]), es[1..])
  }

  function Fills(b: BrokerState, es: seq<Event>): seq<ExecutionResult>
    decreases es
  {
    if es == [] then [] else NewFills(b, es[0]) + Fills(Step(b, es[0]), es[1..])
  }

  lemma StepKeepsValid(b: BrokerState, e: Event)
    requires Valid(b)
    ensures Valid(Step(b, e))
  {
    match e
    case Order(a, rid, draw) => PlaceOrderKeepsValid(b, a, rid, draw);
    case CloseAt(symbol, price, rid) => ClosePositionKeepsValid(b, symbol, price, rid);
  }

  // ------------------------------------------------------------------
  // What an event can do
  // ------------------------------------------------------------------

  /** Every event leaves the portfolio alone, opens one position, or closes one. */
  datatype Effect =
    | Nothing
    | Opens(symbol: Symbol, pos: Position, ref: real)
    | Closes(symbol: Symbol, pos: Position, ref: real)

  ghost predicate HasEffect(b: BrokerState, e: Event, f: Effect) {
    var b' := Step(b, e);
    var rs := NewFills(b, e);
    match f
    case Nothing => b'.cash == b.cash && b'.positions == b.positions && rs == []
    case Opens(s, pos, ref) =>
      && s !in b.positions && Sound(pos) && ref > 0.0
      && pos.entryPrice == EntryPrice(pos.side, ref)
      && b'.cash == b.cash - pos.cost && b'.positions == b.positions[s := pos]
      && |rs| == 1 && rs[0].IsFill() && rs[0].side == pos.side && rs[0].symbol == s
      && rs[0].id == e.rid && rs[0].realizedPnl == None
      && rs[0].totalCost == Some(Times(pos.quantity, pos.entryPrice))
      && rs[0].fee == Some(Fee(Times(pos.quantity, pos.entryPrice)))
      && e.Order? && e.a.proposal.symbol == s && e.a.proposal.technical.Some?
      && e.a.proposal.side == pos.side && rs[0].proposal == Some(e.a.proposal.id)
      && ref == e.a.proposal.technical.value.price
    case Closes(s, pos, ref) =>
      && s in b.positions && pos == b.positions[s] && ref > 0.0
      && b'.cash == b.cash + CashReturned(pos, ref) && b'.positions == b.positions - {s}
      && rs == [CloseResult(s, pos, ref, if e.Order? then Some(e.a.proposal.id) else None, e.rid)]
      && (ref == pos.entryPrice
          || (e.Order? && e.a.proposal.symbol == s && e.a.proposal.technical.Some?
              && ref == e.a.proposal.technical.value.price)
          || (e.CloseAt? && e.symbol == s && e.price == Some(ref)))
      && (if e.Order? then e.a.proposal.symbol == s && e.a.proposal.side == pos.side.Opposite() else e.symbol == s)
  }

  lemma EffectOf(b: BrokerState, e: Event) returns (f: Effect)
    requires Valid(b)
    ensures HasEffect(b, e, f)
  {
    match e
    case Order(a, rid, draw) =>
      var p := a.proposal;
      var (b', o) := PlaceOrder(b, a, rid, draw);
      if p.id in b.filled || o.Raised? {
        f := Nothing;
      } else {
        var ref := p.technical.value.price;
        if p.symbol in b.positions {
          f := Closes(p.symbol, b.positions[p.symbol], ref);
        } else {
          var qty := OpenOrderShape(b, a, ref, rid, draw);
          NewPositionSound(p.side, qty, ref);
          f := Opens(p.symbol, NewPosition(p.side, qty, EntryPrice(p.side, ref)), ref);
        }
      }
    case CloseAt(symbol, price, rid) =>
      if symbol !in b.positions {
        f := Nothing;
      } else {
        var pos := b.positions[symbol];
        f := Closes(symbol, pos, if price.Some? && price.value > 0.0 then price.value else pos.entryPrice);
      }
  }

  lemma CostsOfOpen(positions: map<Symbol, Position>, s: Symbol, pos: Position)
    requires s !in positions
    ensures Total(Costs(positions[s := pos])) == Total(Costs(positions)) + pos.cost
  {
    assert Costs(positions[s := pos]) == Costs(positions)[s := pos.cost];
    TotalInsert(Costs(positions), s, pos.cost);
  }

  lemma CostsOfClose(positions: map<Symbol, Position>, s: Symbol)
    requires s in positions
    ensures Total(Costs(positions - {s})) == Total(Costs(positions)) - positions[s].cost
  {
    assert Costs(positions - {s}) == Costs(positions) - {s};
    TotalDelete(Costs(positions), s);
  }

  // ------------------------------------------------------------------
  // No free lunch
  // ------------------------------------------------------------------

  /** Every price an event carries is the constant reference price of its symbol. */
  predicate AtPrices(e: Event, ref: Symbol -> real) {
    match e
    case Order(a, _, _) => a.proposal.technical.Some? ==> a.proposal.technical.value.price == ref(a.proposal.symbol)
    case CloseAt(s, price, _) => price.Some? ==> price.value == ref(s)
  }

  ghost predicate OpenedAt(b: BrokerState, ref: Symbol -> real) {
    forall s :: s in b.positions ==>
      ref(s) > 0.0 && b.positions[s].entryPrice == EntryPrice(b.positions[s].side, ref(s))
  }

  lemma TimesMonotone(q: real, x: real, y: real)
    requires q >= 0.0 && x <= y
    ensures Times(q, x) <= Times(q, y)
  {
  }

  lemma TimesDifference(q: real, x: real, y: real)
    ensures Times(q, x - y) == Times(q, x) - Times(q, y)
  {
  }

  /** Closing at the opening reference, or at the entry price, returns at most what was reserved. */
  lemma CloseLosesAtConstantPrice(pos: Position, open: real, close: real)
    requires Sound(pos) && open > 0.0 && pos.entryPrice == EntryPrice(pos.side, open)
    requires close == open || close == pos.entryPrice
    ensures CashReturned(pos, close) <= pos.cost
  {
    var entry, exit := pos.entryPrice, ExitPrice(pos.side, close);
    SpreadIsAdverse(open);
    SpreadIsAdverse(close);
    if close == entry {
      if pos.side == Buy {
        Down8Monotone(entry * (1.0 - SLIPPAGE), entry);
      } else {
        Down8Monotone(entry, entry * (1.0 + SLIPPAGE));
      }
    }
    assert if pos.side == Buy then exit <= entry else entry <= exit;
    TimesMonotone(pos.quantity, 0.0, exit);
    TimesMonotone(pos.quantity, 0.0, entry);
    FeeNonnegative(Times(pos.quantity, exit));
    FeeNonnegative(Times(pos.quantity, entry));
    if pos.side == Buy {
      TimesMonotone(pos.quantity, exit, entry);
    } else {
      TimesMonotone(pos.quantity, entry - exit, 0.0);
    }
  }

  lemma StepNeverGains(b: BrokerState, e: Event, ref: Symbol -> real)
    requires Valid(b) && OpenedAt(b, ref) && AtPrices(e, ref)
    ensures OpenedAt(Step(b, e), ref)
    ensures Equity(Step(b, e)) <= Equity(b)
  {
    var f := EffectOf(b, e);
    match f
    case Nothing =>
    case Opens(s, pos, r) => CostsOfOpen(b.positions, s, pos);
    case Closes(s, pos, r) =>
      CostsOfClose(b.positions, s);
      CloseLosesAtConstantPrice(pos, ref(s), r);
  }

  /** With one constant reference price per symbol no sequence of events raises broker equity. */
  lemma {:induction false} NoFreeLunch(b: BrokerState, es: seq<Event>, ref: Symbol -> real)
    requires Valid(b) && OpenedAt(b, ref)
    requires forall e :: e in es ==> AtPrices(e, ref)
    ensures Equity(Run(b, es)) <= Equity(b)
    decreases es
  {
    if es != [] {
      StepKeepsValid(b, es[0]);
      StepNeverGains(b, es[0], ref);
      NoFreeLunch(Step(b, es[0]), es[1..], ref);
    }
  }

  // ------------------------------------------------------------------
  // Audit fold against cash
  // ------------------------------------------------------------------

  /** One row of the daily PnL query: sell proceeds minus buy costs minus fees, filled rows only. */
  function AuditRow(r: ExecutionResult): real {
    if r.status != Filled && r.status != PartiallyFilled then 0.0
    else
      var cost := if r.totalCost.Some? then r.totalCost.value else 0.0;
      (if r.side == Sell then cost else -cost) - (if r.fee.Some? then r.fee.value else 0.0)
  }

  function AuditPnl(rows: seq<ExecutionResult>): real {
    if rows == [] then 0.0 else AuditRow(rows[0]) + AuditPnl(rows[1..])
  }

  lemma {:induction false} AuditPnlAppend(xs: seq<ExecutionResult>, ys: seq<ExecutionResult>)
    ensures AuditPnl(xs + ys) == AuditPnl(xs) + AuditPnl(ys)
  {
    if xs == [] {
      assert xs + ys == ys;
    } else {
      assert (xs + ys)[1..] == xs[1..] + ys;
      AuditPnlAppend(xs[1..], ys);
    }
  }

  /** The entry fee of the short position an event opens, if it opens one. */
  function ShortEntryFee(b: BrokerState, e: Event): real {
    var rs := NewFills(b, e);
    if rs != [] && rs[0].realizedPnl.None? && rs[0].side == Sell && rs[0].fee.Some? then rs[0].fee.value else 0.0
  }

  function ShortEntryFees(b: BrokerState, es: seq<Event>): real
    decreases es
  {
    if es == [] then 0.0 else ShortEntryFee(b, es[0]) + ShortEntryFees(Step(b, es[0]), es[1..])
  }

  /** Open shorts: their sale proceeds are in the audit but not in cash, and their cost is locked. */
  function ShortLocks(positions: map<Symbol, Position>): map<Symbol, real> {
    map s | s in positions && positions[s].side == Sell ::
      Times(positions[s].quantity, positions[s].entryPrice) + positions[s].cost
  }

  ghost function Locked(b: BrokerState): real {
    Total(ShortLocks(b.positions))
  }

  lemma LockOfOpen(positions: map<Symbol, Position>, s: Symbol, pos: Position)
    requires s !in positions
    ensures Total(ShortLocks(positions[s := pos])) == Total(ShortLocks(positions))
            + if pos.side == Sell then Times(pos.quantity, pos.entryPrice) + pos.cost else 0.0
  {
    var v := Times(pos.quantity, pos.entryPrice) + pos.cost;
    if pos.side == Sell {
      assert ShortLocks(positions[s := pos]) == ShortLocks(positions)[s := v];
      TotalInsert(ShortLocks(positions), s, v);
    } else {
      assert ShortLocks(positions[s := pos]) == ShortLocks(positions);
    }
  }

  lemma LockOfClose(positions: map<Symbol, Position>, s: Symbol)
    requires s in positions
    ensures var pos := positions[s];
            Total(ShortLocks(positions - {s})) == Total(ShortLocks(positions))
            - if pos.side == Sell then Times(pos.quantity, pos.entryPrice) + pos.cost else 0.0
  {
    assert ShortLocks(positions - {s}) == ShortLocks(positions) - {s};
    TotalDelete(ShortLocks(positions), s);
  }

  lemma AuditSingle(r: ExecutionResult)
    ensures AuditPnl([r]) == AuditRow(r)
  {
    assert AuditPnl([r][1..]) == 0.0;
  }

  ghost predicate Audited(b: BrokerState, e: Event) {
    var b' := Step(b, e);
    AuditPnl(NewFills(b, e)) == b'.cash - b.cash - ShortEntryFee(b, e) + Locked(b') - Locked(b)
  }

  lemma AuditOpen(b: BrokerState, e: Event, f: Effect)
    requires Valid(b) && f.Opens? && HasEffect(b, e, f)
    ensures Audited(b, e)
  {
    LockOfOpen(b.positions, f.symbol, f.pos);
    AuditSingle(NewFills(b, e)[0]);
  }

  /** What a closing fill adds to the audit: the cash it returned, less what its short had locked. */
  lemma ClosingRow(s: Symbol, pos: Position, ref: real, proposal: Option<Id>, rid: Id)
    ensures AuditRow(CloseResult(s, pos, ref, proposal, rid))
            == CashReturned(pos, ref)
               - if pos.side == Sell then Times(pos.quantity, pos.entryPrice) + pos.cost else 0.0
  {
    TimesDifference(pos.quantity, pos.entryPrice, ExitPrice(pos.side, ref));
  }

  lemma AuditClose(b: BrokerState, e: Event, f: Effect)
    requires Valid(b) && f.Closes? && HasEffect(b, e, f)
    ensures Audited(b, e)
  {
    LockOfClose(b.positions, f.symbol);
    AuditSingle(NewFills(b, e)[0]);
    ClosingRow(f.symbol, f.pos, f.ref, if e.Order? then Some(e.a.proposal.id) else None, e.rid);
  }

  lemma AuditStep(b: BrokerState, e: Event)
    requires Valid(b)
    ensures Audited(b, e)
  {
    var f := EffectOf(b, e);
    match f
    case Nothing =>
    case Opens(_, _, _) => AuditOpen(b, e, f);
    case Closes(_, _, _) => AuditClose(b, e, f);
  }

  lemma {:induction false} AuditOverRun(b: BrokerState, es: seq<Event>)
    requires Valid(b)
    ensures AuditPnl(Fills(b, es))
            == Run(b, es).cash - b.cash - ShortEntryFees(b, es) + Locked(Run(b, es)) - Locked(b)
    decreases es
  {
    if es != [] {
      var b1 := Step(b, es[0]);
      StepKeepsValid(b, es[0]);
      AuditStep(b, es[0]);
      AuditOverRun(b1, es[1..]);
      AuditPnlAppend(NewFills(b, es[0]), Fills(b1, es[1..]));
    }
  }

  /** The event opens a short. */
  predicate OpensShort(b: BrokerState, e: Event) {
    var rs := NewFills(b, e);
    rs != [] && rs[0].realizedPnl.None? && rs[0].side == Sell
  }

  /** It opens one on a notional of at least 10 USD, from where the truncated fee is at least a cent. */
  predicate OpensFeeBearingShort(b: BrokerState, e: Event) {
    OpensShort(b, e) && NewFills(b, e)[0].totalCost.Some? && NewFills(b, e)[0].totalCost.value >= 10.0
  }

  lemma ShortEntryFeeSign(b: BrokerState, e: Event)
    requires Valid(b)
    ensures ShortEntryFee(b, e) >= 0.0
    ensures ShortEntryFee(b, e) == 0.0 <==> !OpensFeeBearingShort(b, e)
  {
    var f := EffectOf(b, e);
    if f.Opens? {
      EntryNotionalPositive(f.pos);
      FeeIsZeroIff(Times(f.pos.quantity, f.pos.entryPrice));
    }
  }

  lemma EntryNotionalPositive(pos: Position)
    requires Sound(pos)
    ensures Times(pos.quantity, pos.entryPrice) >= 0.0
  {
  }

  /** No step of the run opens a short of 10 USD or more. */
  predicate NoFeeBearingShort(b: BrokerState, es: seq<Event>)
    decreases es
  {
    es == [] || (!OpensFeeBearingShort(b, es[0]) && NoFeeBearingShort(Step(b, es[0]), es[1..]))
  }

  lemma {:induction false} ShortEntryFeesSign(b: BrokerState, es: seq<Event>)
    requires Valid(b)
    ensures ShortEntryFees(b, es) >= 0.0
    ensures ShortEntryFees(b, es) == 0.0 <==> NoFeeBearingShort(b, es)
    decreases es
  {
    if es != [] {
      ShortEntryFeeSign(b, es[0]);
      StepKeepsValid(b, es[0]);
      ShortEntryFeesSign(Step(b, es[0]), es[1..]);
    }
  }

  /**
   A run that is flat at both ends: the audit fold is the cash change less the entry fees of the
   shorts it opened. It equals the cash change exactly when no short of 10 USD or more was opened.
   */
  lemma AuditMatchesCash(b: BrokerState, es: seq<Event>)
    requires Valid(b) && b.positions == map[] && Run(b, es).positions == map[]
    ensures AuditPnl(Fills(b, es)) == Run(b, es).cash - b.cash - ShortEntryFees(b, es)
    ensures AuditPnl(Fills(b, es)) == Run(b, es).cash - b.cash <==> NoFeeBearingShort(b, es)
  {
    AuditOverRun(b, es);
    ShortEntryFeesSign(b, es);
    assert ShortLocks(b.positions) == map[];
  }

  /** A symbol that is flat is not sold. */
  predicate BuysOrCloses(b: BrokerState, e: Event) {
    e.Order? && e.a.proposal.symbol !in b.positions ==> e.a.proposal.side == Buy
  }

  /** Sell orders only ever close. */
  predicate BuysOrClosesRun(b: BrokerState, es: seq<Event>)
    decreases es
  {
    es == [] || (BuysOrCloses(b, es[0]) && BuysOrClosesRun(Step(b, es[0]), es[1..]))
  }

  lemma {:induction false} LongOnlyOpensNoShort(b: BrokerState, es: seq<Event>)
    requires Valid(b) && BuysOrClosesRun(b, es)
    ensures NoFeeBearingShort(b, es)
    decreases es
  {
    if es != [] {
      var f := EffectOf(b, es[0]);
      StepKeepsValid(b, es[0]);
      LongOnlyOpensNoShort(Step(b, es[0]), es[1..]);
    }
  }

  /** In particular when no order sells at all, whatever the monitor closes. */
  lemma {:induction false} BuyOrdersNeverShort(b: BrokerState, es: seq<Event>)
    requires forall e :: e in es && e.Order? ==> e.a.proposal.side == Buy
    ensures BuysOrClosesRun(b, es)
    decreases es
  {
    if es != [] {
      assert es[0] in es;
      BuyOrdersNeverShort(Step(b, es[0]), es[1..]);
    }
  }

  /** Long-only runs, flat at both ends: the audit fold is exactly the cash change. */
  lemma LongOnlyAuditIsCash(b: BrokerState, es: seq<Event>)
    requires Valid(b) && b.positions == map[] && Run(b, es).positions == map[]
    requires BuysOrClosesRun(b, es)
    ensures AuditPnl(Fills(b, es)) == Run(b, es).cash - b.cash
  {
    LongOnlyOpensNoShort(b, es);
    AuditMatchesCash(b, es);
  }

  /** The gross of a round trip, from its two notionals. */
  function Gross(side: Side, entry: real, exit: real): real {
    if side == Buy then exit - entry else entry - exit
  }

  /**
   What closing realises, before rounding: the gross less both fees, exactly for longs and for shorts
   of less than 10 USD. Any other short keeps its entry fee, which comes back as part of the cost basis.
   */
  lemma RealizedIsNetOf(pos: Position, ref: real)
    requires Sound(pos)
    ensures var entry := Times(pos.quantity, pos.entryPrice);
            var exit := Times(pos.quantity, ExitPrice(pos.side, ref));
            var realized := CashReturned(pos, ref) - pos.cost;
            && (realized == Gross(pos.side, entry, exit) - Fee(entry) - Fee(exit) <==> pos.side == Buy || entry < 10.0)
            && (pos.side == Sell ==> realized == Gross(pos.side, entry, exit) - Fee(exit))
  {
    TimesDifference(pos.quantity, pos.entryPrice, ExitPrice(pos.side, ref));
    EntryNotionalPositive(pos);
    FeeIsZeroIff(Times(pos.quantity, pos.entryPrice));
  }

  // ------------------------------------------------------------------
  // A short round trip
  // ------------------------------------------------------------------

  /** An approved order to sell `size` dollars' worth at the reference price. */
  function ShortOrder(symbol: Symbol, ref: real, size: real): Event {
    var p := TradeProposal(0, symbol, Sell, size, None, Some(TechnicalSignal(ref, 0.0, None)));
    Order(RiskAssessment(p, Approved, Some(size)), 0, FullFill)
  }

  function Cover(symbol: Symbol, ref: real): Event {
    CloseAt(symbol, Some(ref), 1)
  }

  /** An accepted short order, field by field. */
  lemma ShortOpens(b: BrokerState, symbol: Symbol, ref: real, size: real, price: real, qty: real)
    requires 0 !in b.filled && symbol !in b.positions && ref > 0.0 && size > 0.0
    requires price > 0.0 && SellFill(ref) == price && qty > 0.0 && RequestedQuantity(size, price) == qty
    requires NewPosition(Sell, qty, price).cost <= b.cash
    ensures var e, pos := ShortOrder(symbol, ref, size), NewPosition(Sell, qty, price);
            var b1, rs := Step(b, e), NewFills(b, e);
            && b1.cash == b.cash - pos.cost && b1.positions == b.positions[symbol := pos]
            && |rs| == 1 && rs[0].IsFill() && rs[0].side == Sell
            && rs[0].totalCost == Some(Times(qty, price)) && rs[0].fee == Some(Fee(Times(qty, price)))
  {
    var a := ShortOrder(symbol, ref, size).a;
    assert a.EffectiveSize() == size && EntryPrice(Sell, ref) == price;
    assert FillQuantity(qty, FullFill) == (qty, Filled);
    assert OpenOrder(b, a, ref, 0, FullFill).1.Done?;
  }

  /** Covering a short, field by field. */
  lemma ShortCovers(b: BrokerState, symbol: Symbol, pos: Position, ref: real, exit: real)
    requires symbol in b.positions && b.positions[symbol] == pos && pos.side == Sell && pos.quantity > 0.0
    requires ref > 0.0 && BuyFill(ref) == exit
    ensures var e, gross := Cover(symbol, ref), Times(pos.entryPrice - exit, pos.quantity);
            var fee := Fee(Times(pos.quantity, exit));
            var b1, rs := Step(b, e), NewFills(b, e);
            && b1.cash == b.cash + (pos.cost + gross - fee) && b1.positions == b.positions - {symbol}
            && |rs| == 1 && rs[0].IsFill() && rs[0].side == Buy && rs[0].realizedPnl == Some(RoundCents(gross - fee))
            && rs[0].totalCost == Some(Times(pos.quantity, exit)) && rs[0].fee == Some(fee)
  {
    TimesSwap(pos.quantity, pos.entryPrice - exit);
    var gross, fee := Times(pos.entryPrice - exit, pos.quantity), Fee(Times(pos.quantity, exit));
    assert CashReturned(pos, ref) == pos.cost + gross - fee;
    assert pos.cost + gross - fee - pos.cost == gross - fee;
  }

  lemma TimesSwap(x: real, y: real)
    ensures Times(x, y) == Times(y, x)
  {
  }

  lemma ThousandNumbers(ref: real)
    requires ref == 1000.0
    ensures SellFill(ref) == 999.5 && BuyFill(ref) == 1000.5
  {
    Down8Exact(999.5, 99950000000);
    Down8Exact(1000.5, 100050000000);
    assert ref * (1.0 - SLIPPAGE) == 999.5 && ref * (1.0 + SLIPPAGE) == 1000.5;
  }

  lemma OneUnit(price: real)
    requires price > 0.0
    ensures RequestedQuantity(price, price) == 1.0
    ensures Times(1.0, price) == price && Times(price, 1.0) == price
  {
    Down8Exact(1.0, 100000000);
    assert price / price == 1.0;
  }

  lemma TwoFillsAudit(r1: ExecutionResult, r2: ExecutionResult)
    ensures AuditPnl([r1, r2]) == AuditRow(r1) + AuditRow(r2)
  {
    AuditSingle(r2);
    assert [r1, r2][1..] == [r2];
  }

  lemma TwoStepRun(b: BrokerState, e1: Event, e2: Event)
    requires |NewFills(b, e1)| == 1 && |NewFills(Step(b, e1), e2)| == 1
    ensures Run(b, [e1, e2]) == Step(Step(b, e1), e2)
    ensures Fills(b, [e1, e2]) == [NewFills(b, e1)[0], NewFills(Step(b, e1), e2)[0]]
  {
    var b1 := Step(b, e1);
    assert [e1, e2][1..] == [e2] && [e2][1..] == [];
    assert Run(b1, [e2]) == Step(b1, e2) && Fills(b1, [e2]) == NewFills(b1, e2);
  }

  /**
   A short of one unit opened and covered at a reference price of 1,000 loses 1 USD of spread and pays
   fees of 0.99 and 1.00. Cash and realised PnL both show 2.00; the audit fold shows 2.99.
   */
  lemma ShortRoundTripDiffers(b: BrokerState, symbol: Symbol, ref: real)
    requires b.cash >= 1000.49 && b.filled == map[] && b.positions == map[] && ref == 1000.0
    ensures var es := [ShortOrder(symbol, ref, 999.5), Cover(symbol, ref)];
            && Run(b, es).positions == map[] && Run(b, es).cash - b.cash == -2.0
            && |Fills(b, es)| == 2 && Fills(b, es)[1].realizedPnl == Some(-2.0)
            && AuditPnl(Fills(b, es)) == -2.99
  {
    var e1, e2, pos := ShortOrder(symbol, ref, 999.5), Cover(symbol, ref), NewPosition(Sell, 1.0, 999.5);
    ThousandNumbers(ref);
    OneUnit(999.5);
    OneUnit(1000.5);
    FeeInCents(999.5, 99);
    FeeInCents(1000.5, 100);
    ShortOpens(b, symbol, ref, 999.5, 999.5, 1.0);
    ShortCovers(Step(b, e1), symbol, pos, ref, 1000.5);
    OneUnitGross();
    RoundCentsExact(-2.0, -200);
    TwoStepRun(b, e1, e2);
    TwoFillsAudit(NewFills(b, e1)[0], NewFills(Step(b, e1), e2)[0]);
  }

  lemma OneUnitGross()
    ensures Times(999.5 - 1000.5, 1.0) == -1.0
  {
  }

  // ------------------------------------------------------------------
  // At most one fill per proposal
  // ------------------------------------------------------------------

  /** How many fills of the run went into the idempotency cache (monitor closes do not). */
  function Remembered(b: BrokerState, es: seq<Event>): nat
    decreases es
  {
    if es == [] then 0
    else (if es[0].Order? then |NewFills(b, es[0])| else 0) + Remembered(Step(b, es[0]), es[1..])
  }

  predicate NoOrderFor(id: Id, es: seq<Event>) {
    forall e :: e in es && e.Order? ==> e.a.proposal.id != id
  }

  lemma FillIsPushed(b: BrokerState, e: Event)
    requires Valid(b) && e.Order? && NewFills(b, e) != []
    ensures Step(b, e).recent == Push(b.recent, e.a.proposal.id) && |NewFills(b, e)| == 1
    ensures forall id :: id in Step(b, e).filled <==> id in Step(b, e).recent
    ensures forall id :: id in Step(b, e).filled && id != e.a.proposal.id ==>
                           id in b.filled && Step(b, e).filled[id] == b.filled[id]
  {
    var p := e.a.proposal;
    StepKeepsValid(b, e);
    if p.symbol !in b.positions {
      var qty := OpenOrderShape(b, e.a, p.technical.value.price, e.rid, e.draw);
    }
  }

  lemma AgesByStep(b: BrokerState, e: Event, id: Id, age: nat)
    requires Valid(b) && HasAge(b.recent, id, age) && id in b.filled
    requires e.Order? ==> e.a.proposal.id != id
    ensures var b' := Step(b, e);
            var age' := if e.Order? then age + |NewFills(b, e)| else age;
            if age' < CAPACITY then HasAge(b'.recent, id, age') && id in b'.filled && b'.filled[id] == b.filled[id]
            else id !in b'.filled
  {
    if e.Order? && NewFills(b, e) != [] {
      FillIsPushed(b, e);
      PushAges(b.recent, id, e.a.proposal.id, age);
    }
  }

  lemma ForgottenStays(b: BrokerState, es: seq<Event>, id: Id)
    requires Valid(b) && id !in b.filled && NoOrderFor(id, es)
    ensures id !in Run(b, es).filled
    decreases es
  {
    if es != [] {
      StepKeepsValid(b, es[0]);
      StepDoesNotRecall(b, es[0], id);
      ForgottenStays(Step(b, es[0]), es[1..], id);
    }
  }

  lemma StepDoesNotRecall(b: BrokerState, e: Event, id: Id)
    requires Valid(b) && id !in b.filled
    requires e.Order? ==> e.a.proposal.id != id
    ensures id !in Step(b, e).filled
  {
    if e.Order? && NewFills(b, e) != [] {
      var p := e.a.proposal;
      if p.symbol !in b.positions {
        var qty := OpenOrderShape(b, e.a, p.technical.value.price, e.rid, e.draw);
      }
    }
  }

  /** With no further order for it, a result stays cached exactly while fewer than 1,000 fills are remembered. */
  lemma {:induction false} AgesOverRun(b: BrokerState, es: seq<Event>, id: Id, age: nat)
    requires Valid(b) && HasAge(b.recent, id, age) && id in b.filled && age < CAPACITY
    requires NoOrderFor(id, es)
    ensures var b' := Run(b, es);
            if age + Remembered(b, es) < CAPACITY then id in b'.filled && b'.filled[id] == b.filled[id]
            else id !in b'.filled
    decreases es
  {
    if es != [] {
      var e, b1 := es[0], Step(b, es[0]);
      StepKeepsValid(b, e);
      AgesByStep(b, e, id, age);
      var age' := if e.Order? then age + |NewFills(b, e)| else age;
      if age' < CAPACITY {
        AgesOverRun(b1, es[1..], id, age');
      } else {
        ForgottenStays(b1, es[1..], id);
      }
    }
  }

  /** Presented at this state, the proposal is answered from the cache: first result, no fill, no change. */
  predicate AnsweredFromCache(b: BrokerState, e: Event, r: ExecutionResult)
    requires e.Order?
  {
    PlaceOrder(b, e.a, e.rid, e.draw) == (b, Done(r)) && NewFills(b, e) == []
  }

  /** Repeats answered from the cache age nothing, so the run may present the proposal any number of times. */
  lemma {:induction false} StaysCached(b: BrokerState, es: seq<Event>, id: Id, age: nat)
    requires Valid(b) && HasAge(b.recent, id, age) && id in b.filled
    requires age + Remembered(b, es) < CAPACITY
    ensures id in Run(b, es).filled && Run(b, es).filled[id] == b.filled[id]
    ensures forall k :: 0 <= k < |es| && es[k].Order? && es[k].a.proposal.id == id ==>
                          AnsweredFromCache(Run(b, es[..k]), es[k], b.filled[id])
    decreases es
  {
    if es != [] {
      var e, b1 := es[0], Step(b, es[0]);
      StepKeepsValid(b, e);
      if e.Order? && e.a.proposal.id == id {
        assert AnsweredFromCache(b, e, b.filled[id]);
        StaysCached(b1, es[1..], id, age);
      } else {
        AgesByStep(b, e, id, age);
        StaysCached(b1, es[1..], id, if e.Order? then age + |NewFills(b, e)| else age);
      }
      forall k | 0 <= k < |es| && es[k].Order? && es[k].a.proposal.id == id
        ensures AnsweredFromCache(Run(b, es[..k]), es[k], b.filled[id])
      {
        if k > 0 {
          assert es[..k][0] == e && es[..k][1..] == es[1..][..k - 1];
          assert es[k] == es[1..][k - 1];
        }
      }
    }
  }

  lemma FirstFillIsNewest(b: BrokerState, first: Event)
    requires Valid(b) && first.Order? && NewFills(b, first) != []
    ensures var b1, id := Step(b, first), first.a.proposal.id;
            Valid(b1) && HasAge(b1.recent, id, 0) && id in b1.filled && b1.filled[id] == NewFills(b, first)[0]
  {
    var p := first.a.proposal;
    if p.symbol !in b.positions {
      var qty := OpenOrderShape(b, first.a, p.technical.value.price, first.rid, first.draw);
    }
    FillIsPushed(b, first);
    PushKeepsBounds(b.recent, p.id);
    StepKeepsValid(b, first);
  }

  /**
   A proposal fills at most once: after its fill, every further presentation in the run, however many
   there are, gets the first result back, fills nothing and changes nothing, as long as fewer than
   1,000 other fills are remembered.
   */
  lemma FilledAtMostOnce(b: BrokerState, first: Event, es: seq<Event>)
    requires Valid(b) && first.Order? && NewFills(b, first) != []
    requires Remembered(Step(b, first), es) < CAPACITY
    ensures forall k :: 0 <= k < |es| && es[k].Order? && es[k].a.proposal.id == first.a.proposal.id ==>
                          AnsweredFromCache(Run(Step(b, first), es[..k]), es[k], NewFills(b, first)[0])
    ensures first.a.proposal.id in Run(Step(b, first), es).filled
  {
    FirstFillIsNewest(b, first);
    StaysCached(Step(b, first), es, first.a.proposal.id, 0);
  }

  /** The bound is sharp: not presented again, the proposal is forgotten from the 1,000th other fill on. */
  lemma ForgottenIff(b: BrokerState, first: Event, es: seq<Event>)
    requires Valid(b) && first.Order? && NewFills(b, first) != [] && NoOrderFor(first.a.proposal.id, es)
    ensures first.a.proposal.id in Run(Step(b, first), es).filled <==> Remembered(Step(b, first), es) < CAPACITY
  {
    FirstFillIsNewest(b, first);
    AgesOverRun(Step(b, first), es, first.a.proposal.id, 0);
  }
}
