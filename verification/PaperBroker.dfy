/** The simulated broker: fills with slippage, partial fills, fees, cash and one position per symbol. */
module PaperBroker {
  import opened Basics
  import opened Money
  import opened Trading
  import opened RecentIds

  datatype Position = Position(side: Side, quantity: real, entryPrice: real, cost: real)

  /** `recent` orders the keys of `filled`, oldest first. */
  datatype BrokerState = BrokerState(
    cash: real,
    positions: map<Symbol, Position>,
    recent: seq<Id>,
    filled: map<Id, ExecutionResult>)

  datatype BrokerError =
    | NoReferencePrice
    | NonPositivePrice
    | AlreadyOpen
    | NoEffectiveSize
    | DivisionByZero
    | ZeroQuantity
    | InsufficientBalance

  datatype Outcome = Done(result: ExecutionResult) | Raised(error: BrokerError)

  /** The random draw of an opening order: a full fill, or a fraction of the requested quantity. */
  datatype FillDraw = FullFill | PartialFill(ratio: real) {
    predicate InRange() {
      PartialFill? ==> 0.60 <= ratio <= 0.99
    }
  }

  // ------------------------------------------------------------------
  // Specification
  // ------------------------------------------------------------------

  function Remember(b: BrokerState, id: Id, r: ExecutionResult): BrokerState {
    var recent := Push(b.recent, id);
    var filled := b.filled[id := r];
    b.(recent := recent, filled := map k | k in filled && k in recent :: filled[k])
  }

  function ExitPrice(side: Side, ref: real): real {
    if side == Buy then SellFill(ref) else BuyFill(ref)
  }

  /** What closing `pos` at `ref` pays into cash. */
  function CashReturned(pos: Position, ref: real): real {
    var exit := ExitPrice(pos.side, ref);
    var fee := Fee(Times(pos.quantity, exit));
    if pos.side == Buy then Times(pos.quantity, exit) - fee
    else pos.cost + Times(pos.quantity, pos.entryPrice - exit) - fee
  }

  function CloseResult(symbol: Symbol, pos: Position, ref: real, proposal: Option<Id>, rid: Id): ExecutionResult {
    var exit := ExitPrice(pos.side, ref);
    ExecutionResult(
      rid, proposal, symbol, pos.side.Opposite(), Filled, pos.quantity, pos.quantity,
      Some(exit), Some(Times(pos.quantity, exit)), Some(Fee(Times(pos.quantity, exit))),
      Some(RoundCents(CashReturned(pos, ref) - pos.cost)))
  }

  function Close(b: BrokerState, symbol: Symbol, ref: real): BrokerState
    requires symbol in b.positions
  {
    b.(cash := b.cash + CashReturned(b.positions[symbol], ref), positions := b.positions - {symbol})
  }

  /** close_position: no position is a no-op; without a positive price the entry price is used. */
  function ClosePosition(b: BrokerState, symbol: Symbol, price: Option<real>, rid: Id):
    (BrokerState, Option<ExecutionResult>)
  {
    if symbol !in b.positions then (b, None)
    else
      var pos := b.positions[symbol];
      var ref := if price.Some? && price.value > 0.0 then price.value else pos.entryPrice;
      (Close(b, symbol, ref), Some(CloseResult(symbol, pos, ref, None, rid)))
  }

  function EntryPrice(side: Side, ref: real): real {
    if side == Buy then BuyFill(ref) else SellFill(ref)
  }

  function RequestedQuantity(size: real, price: real): real
    requires price != 0.0
  {
    Down8(size / price)
  }

  /** The quantity filled and its status; a partial fill that truncates to zero fills in full. */
  function FillQuantity(requested: real, draw: FillDraw): (real, OrderStatus) {
    match draw
    case FullFill => (requested, Filled)
    case PartialFill(ratio) =>
      var q := Down8(Times(requested, ratio));
      if q <= 0.0 then (requested, Filled) else (q, PartiallyFilled)
  }

  /** The cash reserved for a position is its fill notional plus the fee. */
  function NewPosition(side: Side, qty: real, price: real): Position {
    Position(side, qty, price, Times(qty, price) + Fee(Times(qty, price)))
  }

  function OpenOrder(b: BrokerState, a: RiskAssessment, ref: real, rid: Id, draw: FillDraw): (BrokerState, Outcome) {
    var p := a.proposal;
    var price := EntryPrice(p.side, ref);
    if a.EffectiveSize() <= 0.0 then (b, Raised(NoEffectiveSize))
    else if price == 0.0 then (b, Raised(DivisionByZero))
    else
      var requested := RequestedQuantity(a.EffectiveSize(), price);
      if requested <= 0.0 then (b, Raised(ZeroQuantity))
      else
        var (qty, status) := FillQuantity(requested, draw);
        var pos := NewPosition(p.side, qty, price);
        if pos.cost > b.cash then (b, Raised(InsufficientBalance))
        else
          var r := ExecutionResult(
            rid, Some(p.id), p.symbol, p.side, status, requested, qty,
            Some(price), Some(Times(qty, price)), Some(Fee(Times(qty, price))), None);
          var after := b.(cash := b.cash - pos.cost, positions := b.positions[p.symbol := pos]);
          (Remember(after, p.id, r), Done(r))
  }

  function PlaceOrder(b: BrokerState, a: RiskAssessment, rid: Id, draw: FillDraw): (BrokerState, Outcome) {
    var p := a.proposal;
    if p.id in b.filled then (b, Done(b.filled[p.id]))
    else if p.technical.None? then (b, Raised(NoReferencePrice))
    else if p.technical.value.price <= 0.0 then (b, Raised(NonPositivePrice))
    else
      var ref := p.technical.value.price;
      if p.symbol in b.positions then
        var pos := b.positions[p.symbol];
        if pos.side == p.side then (b, Raised(AlreadyOpen))
        else
          var r := CloseResult(p.symbol, pos, ref, Some(p.id), rid);
          (Remember(Close(b, p.symbol, ref), p.id, r), Done(r))
      else OpenOrder(b, a, ref, rid, draw)
  }

  function Costs(positions: map<Symbol, Position>): map<Symbol, real> {
    map s | s in positions :: positions[s].cost
  }

  /** total_equity_usd: free cash plus the cost basis of the open positions. */
  ghost function Equity(b: BrokerState): real {
    b.cash + Total(Costs(b.positions))
  }

  /** What every reachable position satisfies: its cost is its notional plus the entry fee. */
  predicate Sound(pos: Position) {
    pos.quantity > 0.0 && pos.entryPrice > 0.0 && Down8(pos.entryPrice) == pos.entryPrice &&
    pos.cost == Times(pos.quantity, pos.entryPrice) + Fee(Times(pos.quantity, pos.entryPrice))
  }

  ghost predicate CacheConsistent(b: BrokerState) {
    |b.recent| <= CAPACITY && Distinct(b.recent) && forall id :: id in b.filled <==> id in b.recent
  }

  ghost predicate Valid(b: BrokerState) {
    CacheConsistent(b) && forall s :: s in b.positions ==> Sound(b.positions[s])
  }

  // ------------------------------------------------------------------
  // What the specification keeps
  // ------------------------------------------------------------------

  lemma RememberKeepsCache(b: BrokerState, id: Id, r: ExecutionResult)
    requires CacheConsistent(b)
    ensures CacheConsistent(Remember(b, id, r))
    ensures id in Remember(b, id, r).filled && Remember(b, id, r).filled[id] == r
  {
    PushKeepsBounds(b.recent, id);
  }

  lemma EntryPriceExact(side: Side, ref: real)
    requires ref > 0.0
    ensures EntryPrice(side, ref) >= 0.0
    ensures Down8(EntryPrice(side, ref)) == EntryPrice(side, ref)
  {
    SpreadIsAdverse(ref);
    Down8Idempotent(ref * (1.0 + SLIPPAGE));
    Down8Idempotent(ref * (1.0 - SLIPPAGE));
  }

  lemma FillQuantityPositive(requested: real, draw: FillDraw)
    requires requested > 0.0
    ensures FillQuantity(requested, draw).0 > 0.0
    ensures FillQuantity(requested, draw).1 == Filled || FillQuantity(requested, draw).1 == PartiallyFilled
  {
  }

  lemma ProperFraction(x: real, ratio: real)
    requires x > 0.0 && 0.60 <= ratio <= 0.99
    ensures 0.0 <= Times(x, ratio) < x
  {
    assert x * (1.0 - ratio) > 0.0;
    assert x * ratio > 0.0;
  }

  /** No draw fills more than was requested, and a partial fill is strictly less. */
  lemma FillWithinRequest(requested: real, draw: FillDraw)
    requires requested > 0.0 && draw.InRange()
    ensures var (qty, status) := FillQuantity(requested, draw);
            0.0 < qty <= requested && (status == PartiallyFilled ==> qty < requested)
  {
    if draw.PartialFill? {
      ProperFraction(requested, draw.ratio);
      Down8Nonnegative(Times(requested, draw.ratio));
    }
  }

  /** A successful opening order is a NewPosition at the entry price with a positive quantity. */
  lemma OpenOrderShape(b: BrokerState, a: RiskAssessment, ref: real, rid: Id, draw: FillDraw)
    returns (qty: real)
    requires ref > 0.0 && OpenOrder(b, a, ref, rid, draw).1.Done?
    ensures qty > 0.0 && EntryPrice(a.proposal.side, ref) > 0.0
    ensures var pos := NewPosition(a.proposal.side, qty, EntryPrice(a.proposal.side, ref));
            var (b', o) := OpenOrder(b, a, ref, rid, draw);
            && b'.positions == b.positions[a.proposal.symbol := pos]
            && b'.cash == b.cash - pos.cost
            && b' == Remember(b.(cash := b'.cash, positions := b'.positions), a.proposal.id, o.result)
            && pos.cost <= b.cash
            && o.result.id == rid && o.result.proposal == Some(a.proposal.id)
            && o.result.symbol == a.proposal.symbol && o.result.side == a.proposal.side
            && o.result.filledQuantity == qty && o.result.IsFill()
            && o.result.totalCost == Some(Times(qty, EntryPrice(a.proposal.side, ref)))
            && o.result.Cost() == pos.cost && o.result.realizedPnl == None
  {
    var price := EntryPrice(a.proposal.side, ref);
    EntryPriceExact(a.proposal.side, ref);
    var requested := RequestedQuantity(a.EffectiveSize(), price);
    FillQuantityPositive(requested, draw);
    qty := FillQuantity(requested, draw).0;
  }

  lemma NewPositionSound(side: Side, qty: real, ref: real)
    requires ref > 0.0 && qty > 0.0 && EntryPrice(side, ref) > 0.0
    ensures Sound(NewPosition(side, qty, EntryPrice(side, ref)))
  {
    EntryPriceExact(side, ref);
  }

  lemma PlaceOrderKeepsValid(b: BrokerState, a: RiskAssessment, rid: Id, draw: FillDraw)
    requires Valid(b)
    ensures Valid(PlaceOrder(b, a, rid, draw).0)
  {
    var p := a.proposal;
    var (b', o) := PlaceOrder(b, a, rid, draw);
    if p.id !in b.filled && o.Done? {
      var ref := p.technical.value.price;
      if p.symbol in b.positions {
        RememberKeepsCache(Close(b, p.symbol, ref), p.id, o.result);
      } else {
        var qty := OpenOrderShape(b, a, ref, rid, draw);
        NewPositionSound(p.side, qty, ref);
        var after := b.(positions := b'.positions, cash := b'.cash);
        RememberKeepsCache(after, p.id, o.result);
      }
    }
  }

  lemma ClosePositionKeepsValid(b: BrokerState, symbol: Symbol, price: Option<real>, rid: Id)
    requires Valid(b)
    ensures Valid(ClosePosition(b, symbol, price, rid).0)
  {
  }

  /** Dropping the oldest of distinct identifiers removes exactly that one. */
  lemma EvictOldest(seen: seq<Id>, id: Id)
    requires Distinct(seen) && id !in seen
    ensures forall k :: k in (seen + [id])[1..] <==> k in seen + [id] && k != (seen + [id])[0]
  {
    var s := seen + [id];
    forall k | k in s && k != s[0] ensures k in s[1..] {
      var i :| 0 <= i < |s| && s[i] == k;
      assert s[1..][i - 1] == k;
    }
  }

  /** Restricting the entries to the kept identifiers drops at most the evicted one. */
  lemma RestrictedEntries<V>(filled: map<Id, V>, recent: seq<Id>, id: Id, v: V, keep: seq<Id>, gone: set<Id>)
    requires forall k :: k in filled ==> k in recent
    requires forall k :: k in keep <==> (k == id || k in recent) && k !in gone
    ensures var entries := filled[id := v];
            (map k | k in entries && k in keep :: entries[k]) == entries - gone
  {
  }

  /** The cache after remembering: the new entry, less the oldest one past the capacity. */
  lemma RememberedEntries(b: BrokerState, id: Id, r: ExecutionResult)
    requires CacheConsistent(b)
    ensures var entries := b.filled[id := r];
            Remember(b, id, r).filled
            == if id !in b.recent && |b.recent| + 1 > CAPACITY then entries - {(b.recent + [id])[0]} else entries
  {
    if id !in b.recent && |b.recent| + 1 > CAPACITY {
      EvictOldest(b.recent, id);
      RestrictedEntries(b.filled, b.recent, id, r, Push(b.recent, id), {(b.recent + [id])[0]});
    } else {
      RestrictedEntries(b.filled, b.recent, id, r, Push(b.recent, id), {});
      assert b.filled[id := r] - {} == b.filled[id := r];
    }
  }

  /** The value of `sum(pos.cost_usd for pos in positions)` does not depend on dictionary order. */
  method SumCosts(positions: map<Symbol, Position>) returns (used: real)
    ensures used == Total(Costs(positions))
  {
    used := 0.0;
    var rest := positions.Keys;
    while rest != {}
      invariant rest <= positions.Keys
      invariant Total(Costs(positions)) == used + Total(map s | s in rest :: positions[s].cost)
      decreases rest
    {
      ghost var before := map s | s in rest :: positions[s].cost;
      var s :| s in rest;
      TotalDelete(before, s);
      rest := rest - {s};
      assert before - {s} == map t | t in rest :: positions[t].cost;
      used := used + positions[s].cost;
    }
    assert Costs(positions) == map s | s in positions.Keys :: positions[s].cost;
  }

  // ------------------------------------------------------------------
  // The broker object
  // ------------------------------------------------------------------

  class PaperBroker {
    var cash: real
    var positions: map<Symbol, Position>
    var recent: seq<Id>
    var filled: map<Id, ExecutionResult>

    function State(): BrokerState
      reads this
    {
      BrokerState(cash, positions, recent, filled)
    }

    constructor (initialBalance: real)
      ensures State() == BrokerState(initialBalance, map[], [], map[])
    {
      cash, positions, recent, filled := initialBalance, map[], [], map[];
    }

    /** _remember: record the result, evict the oldest entry past the capacity. */
    method RememberFill(id: Id, r: ExecutionResult)
      requires CacheConsistent(State())
      modifies this`recent, this`filled
      ensures State() == Remember(old(State()), id, r)
    {
      if id !in filled {
        recent := recent + [id];
      }
      filled := filled[id := r];
      if |recent| > CAPACITY {
        filled := filled - {recent[0]};
        recent := recent[1..];
      }
      RememberedEntries(old(State()), id, r);
    }

    method CloseOpen(symbol: Symbol, ref: real, proposal: Option<Id>, rid: Id) returns (r: Option<ExecutionResult>)
      modifies this`cash, this`positions
      ensures symbol !in old(positions) ==> r == None && State() == old(State())
      ensures symbol in old(positions) ==>
                State() == Close(old(State()), symbol, ref)
                && r == Some(CloseResult(symbol, old(positions)[symbol], ref, proposal, rid))
    {
      if symbol !in positions {
        return None;
      }
      var pos := positions[symbol];
      positions := positions - {symbol};
      var exit, fee, returned;
      if pos.side == Buy {
        exit := SellFill(ref);
        fee := Fee(Times(pos.quantity, exit));
        returned := Times(pos.quantity, exit) - fee;
      } else {
        exit := BuyFill(ref);
        fee := Fee(Times(pos.quantity, exit));
        var gross := Times(pos.quantity, pos.entryPrice - exit);
        returned := pos.cost + gross - fee;
      }
      var realized := RoundCents(returned - pos.cost);
      cash := cash + returned;
      r := Some(ExecutionResult(
        rid, proposal, symbol, pos.side.Opposite(), Filled, pos.quantity, pos.quantity,
        Some(exit), Some(Times(pos.quantity, exit)), Some(fee), Some(realized)));
    }

    /** close_position: the monitor's entry point. */
    method ClosePositionAt(symbol: Symbol, price: Option<real>, rid: Id) returns (r: Option<ExecutionResult>)
      modifies this`cash, this`positions
      ensures (State(), r) == ClosePosition(old(State()), symbol, price, rid)
    {
      if symbol !in positions {
        return None;
      }
      var ref := if price.Some? && price.value > 0.0 then price.value else positions[symbol].entryPrice;
      r := CloseOpen(symbol, ref, None, rid);
    }

    /** A raising call returns Raised and has changed nothing. */
    method PlaceOrderFor(a: RiskAssessment, rid: Id, draw: FillDraw) returns (o: Outcome)
      requires CacheConsistent(State()) && draw.InRange()
      modifies this
      ensures (State(), o) == PlaceOrder(old(State()), a, rid, draw)
      ensures o.Raised? ==> State() == old(State())
    {
      var p := a.proposal;
      if p.id in filled {
        return Done(filled[p.id]);
      }
      if p.technical.None? {
        return Raised(NoReferencePrice);
      }
      var ref := p.technical.value.price;
      if ref <= 0.0 {
        return Raised(NonPositivePrice);
      }
      if p.symbol in positions {
        if positions[p.symbol].side == p.side {
          return Raised(AlreadyOpen);
        }
        var r := CloseOpen(p.symbol, ref, Some(p.id), rid);
        RememberFill(p.id, r.value);
        return Done(r.value);
      }
      o := OpenFor(a, ref, rid, draw);
    }

    /** Partial fill simulation; a fill that truncates to zero becomes a full one. */
    method SimulateFill(requested: real, draw: FillDraw) returns (qty: real, status: OrderStatus)
      requires requested > 0.0 && draw.InRange()
      ensures (qty, status) == FillQuantity(requested, draw)
      ensures 0.0 < qty <= requested && (status == PartiallyFilled ==> qty < requested)
    {
      FillWithinRequest(requested, draw);
      qty, status := requested, Filled;
      if draw.PartialFill? {
        qty, status := Down8(Times(requested, draw.ratio)), PartiallyFilled;
      }
      if qty <= 0.0 {
        qty, status := requested, Filled;
      }
    }

    /** The opening half of place_order: price, quantity, fee, balance check, bookkeeping. */
    method OpenFor(a: RiskAssessment, ref: real, rid: Id, draw: FillDraw) returns (o: Outcome)
      requires CacheConsistent(State()) && draw.InRange()
      modifies this
      ensures (State(), o) == OpenOrder(old(State()), a, ref, rid, draw)
    {
      var p := a.proposal;
      var price := if p.side == Buy then BuyFill(ref) else SellFill(ref);
      var size := a.EffectiveSize();
      if size <= 0.0 {
        return Raised(NoEffectiveSize);
      }
      if price == 0.0 {
        return Raised(DivisionByZero);
      }
      var requested := RequestedQuantity(size, price);
      if requested <= 0.0 {
        return Raised(ZeroQuantity);
      }
      var qty, status := SimulateFill(requested, draw);
      var fee := Fee(Times(qty, price));
      var cost := Times(qty, price) + fee;
      if cost > cash {
        return Raised(InsufficientBalance);
      }
      cash := cash - cost;
      positions := positions[p.symbol := Position(p.side, qty, price, cost)];
      var r := ExecutionResult(
        rid, Some(p.id), p.symbol, p.side, status, requested, qty,
        Some(price), Some(Times(qty, price)), Some(fee), None);
      RememberFill(p.id, r);
      return Done(r);
    }

    /** get_balance: total equity, free margin and used margin. */
    method Balance() returns (equity: real, free: real, used: real)
      ensures equity == Equity(State()) && free == cash && used == equity - free
    {
      used := SumCosts(positions);
      free := cash;
      equity := cash + used;
    }
  }
}
