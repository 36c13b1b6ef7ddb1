/** The event-driven backtest loop: fills at the next open, intrabar brackets, mark-to-market equity. */
module Engine {
  import opened Basics
  import opened Market
  import CandleBuffer

  datatype Config = Config(
    initialBalance: real,
    fee: real,
    slippage: real,
    stopLoss: real,
    takeProfit: real,
    maxPositionPct: real,
    minOrder: real,
    maxOrder: real)

  datatype Position = Position(side: Side, entryFill: real, qty: real, entryIndex: nat, size: real)

  datatype ExitReason = Signal | StopLoss | TakeProfit | EndOfData

  /** A round trip. Bars are given by index; their timestamps are those of the candles. */
  datatype Trade = Trade(
    side: Side,
    entryIndex: nat,
    exitIndex: nat,
    entryPrice: real,
    exitPrice: real,
    quantity: real,
    notional: real,
    pnl: real,
    returnPct: real,
    barsHeld: int,
    reason: ExitReason)

  datatype EquityPoint = EquityPoint(time: int, equity: real, inMarket: bool)

  /** The loop's variables. */
  datatype State = State(
    realized: real,
    position: Option<Position>,
    pending: Option<Side>,
    curve: seq<EquityPoint>,
    trades: seq<Trade>)

  // ------------------------------------------------------------------
  // Specification of one bar
  // ------------------------------------------------------------------

  /** Slippage is adverse to the opening side. */
  function EntryFill(cfg: Config, side: Side, raw: real): real {
    if side == Buy then Times(raw, 1.0 + cfg.slippage) else Times(raw, 1.0 - cfg.slippage)
  }

  /** Slippage is adverse to the closing side. */
  function ExitFill(cfg: Config, side: Side, raw: real): real {
    if side == Buy then Times(raw, 1.0 - cfg.slippage) else Times(raw, 1.0 + cfg.slippage)
  }

  function Quotient(a: real, b: real): real {
    if b > 0.0 then a / b else 0.0
  }

  function Opened(cfg: Config, realized: real, side: Side, raw: real, i: nat): Position {
    var size := Max(cfg.minOrder, Min(cfg.maxOrder, Times(cfg.maxPositionPct, realized)));
    var fill := EntryFill(cfg, side, raw);
    Position(side, fill, Quotient(size, fill), i, size)
  }

  /** Gross PnL less both fees. */
  function NetPnl(cfg: Config, pos: Position, exit: real): real {
    var gross := if pos.side == Buy then Times(exit - pos.entryFill, pos.qty) else Times(pos.entryFill - exit, pos.qty);
    gross - Times(cfg.fee, Times(pos.entryFill, pos.qty) + Times(exit, pos.qty))
  }

  function TradeOf(cfg: Config, pos: Position, raw: real, i: nat, reason: ExitReason): Trade {
    var exit := ExitFill(cfg, pos.side, raw);
    var net := NetPnl(cfg, pos, exit);
    Trade(pos.side, pos.entryIndex, i, pos.entryFill, exit, pos.qty, pos.size, net,
          Quotient(net, pos.size), i - pos.entryIndex, reason)
  }

  function ClosedBy(cfg: Config, st: State, raw: real, i: nat, reason: ExitReason): State
    requires st.position.Some?
  {
    var t := TradeOf(cfg, st.position.value, raw, i, reason);
    st.(realized := st.realized + t.pnl, position := None, trades := st.trades + [t])
  }

  /** (1) Fill the order decided on the previous bar at this bar's open. */
  function FillPending(cfg: Config, st: State, c: Candle, i: nat): State {
    if st.pending.None? then st
    else
      var side := st.pending.value;
      var st1 := st.(pending := None);
      if st.position.None? then st1.(position := Some(Opened(cfg, st.realized, side, c.open, i)))
      else if st.position.value.side != side then
        var flat := ClosedBy(cfg, st1, c.open, i, Signal);
        flat.(position := Some(Opened(cfg, flat.realized, side, c.open, i)))
      else st1
  }

  function StopPrice(cfg: Config, pos: Position): real {
    Times(pos.entryFill, if pos.side == Buy then 1.0 - cfg.stopLoss else 1.0 + cfg.stopLoss)
  }

  function TargetPrice(cfg: Config, pos: Position): real {
    Times(pos.entryFill, if pos.side == Buy then 1.0 + cfg.takeProfit else 1.0 - cfg.takeProfit)
  }

  predicate StopHit(cfg: Config, pos: Position, c: Candle) {
    if pos.side == Buy then c.low <= StopPrice(cfg, pos) else c.high >= StopPrice(cfg, pos)
  }

  predicate TargetHit(cfg: Config, pos: Position, c: Candle) {
    if pos.side == Buy then c.high >= TargetPrice(cfg, pos) else c.low <= TargetPrice(cfg, pos)
  }

  /** (2) Intrabar brackets; the adverse level is checked first. */
  function CheckBrackets(cfg: Config, st: State, c: Candle, i: nat): State {
    if st.position.None? then st
    else
      var pos := st.position.value;
      if StopHit(cfg, pos, c) then ClosedBy(cfg, st, StopPrice(cfg, pos), i, StopLoss)
      else if TargetHit(cfg, pos, c) then ClosedBy(cfg, st, TargetPrice(cfg, pos), i, TakeProfit)
      else st
  }

  function Unrealized(position: Option<Position>, close: real): real {
    if position.None? then 0.0
    else
      var pos := position.value;
      if pos.side == Buy then Times(close - pos.entryFill, pos.qty) else Times(pos.entryFill - close, pos.qty)
  }

  /** (3) Mark to market at the close. */
  function Marked(st: State, c: Candle): State {
    st.(curve := st.curve + [EquityPoint(c.time, st.realized + Unrealized(st.position, c.close), st.position.Some?)])
  }

  function Bar(cfg: Config, st: State, c: Candle, i: nat): State {
    Marked(CheckBrackets(cfg, FillPending(cfg, st, c, i), c, i), c)
  }

  // ------------------------------------------------------------------
  // Specification of a run
  // ------------------------------------------------------------------

  /** What the strategy wants after bar i, to be filled at the open of bar i + 1. */
  type Decisions = nat -> Option<Side>

  function Start(cfg: Config): State {
    State(cfg.initialBalance, None, None, [], [])
  }

  /** The state after the first k bars. No decision is asked for on the last bar. */
  function After(cfg: Config, candles: seq<Candle>, decide: Decisions, k: nat): State
    requires k <= |candles|
  {
    if k == 0 then Start(cfg)
    else
      var st := Bar(cfg, After(cfg, candles, decide, k - 1), candles[k - 1], k - 1);
      if k < |candles| then st.(pending := decide(k - 1)) else st
  }

  /** Close any residual position at the last close. */
  function Finished(cfg: Config, candles: seq<Candle>, st: State): State {
    if st.position.None? || candles == [] || st.curve == [] then st
    else
      var n, last := |candles|, candles[|candles| - 1];
      var flat := ClosedBy(cfg, st, last.close, n - 1, EndOfData);
      flat.(curve := st.curve[..|st.curve| - 1] + [EquityPoint(last.time, flat.realized, false)])
  }

  function Run(cfg: Config, candles: seq<Candle>, decide: Decisions): State {
    Finished(cfg, candles, After(cfg, candles, decide, |candles|))
  }

  /** The buffer the strategy sees at bar i: that of the candle's own (symbol, timeframe) pair. */
  function BufferAt(candles: seq<Candle>, i: nat): seq<Candle>
    requires i < |candles|
  {
    CandleBuffer.LastIsRouted(candles[..i + 1]);
    CandleBuffer.RegistryOf(candles[..i + 1])[KeyOf(candles[i])]
  }

  type Strategy = (seq<Candle>, nat) -> Option<Side>

  function DecisionsOf(candles: seq<Candle>, strategy: Strategy): Decisions {
    (i: nat) => if i < |candles| then strategy(BufferAt(candles, i), i) else None
  }

  // ------------------------------------------------------------------
  // The loop
  // ------------------------------------------------------------------

  /** The variables of the replay loop, with the steps that update them. */
  class Replay {
    const cfg: Config
    var realized: real
    var position: Option<Position>
    var pending: Option<Side>
    var curve: seq<EquityPoint>
    var trades: seq<Trade>

    function Now(): State
      reads this
    {
      State(realized, position, pending, curve, trades)
    }

    constructor (cfg: Config)
      ensures Now() == Start(cfg) && this.cfg == cfg
    {
      this.cfg := cfg;
      realized, position, pending, curve, trades := cfg.initialBalance, None, None, [], [];
    }

    method CloseAt(raw: real, i: nat, reason: ExitReason)
      requires position.Some?
      modifies this
      ensures Now() == ClosedBy(cfg, old(Now()), raw, i, reason)
    {
      var pos := position.value;
      var exit, gross;
      if pos.side == Buy {
        exit := Times(raw, 1.0 - cfg.slippage);
        gross := Times(exit - pos.entryFill, pos.qty);
      } else {
        exit := Times(raw, 1.0 + cfg.slippage);
        gross := Times(pos.entryFill - exit, pos.qty);
      }
      var fees := Times(cfg.fee, Times(pos.entryFill, pos.qty) + Times(exit, pos.qty));
      var net := gross - fees;
      trades := trades + [Trade(pos.side, pos.entryIndex, i, pos.entryFill, exit, pos.qty, pos.size, net,
                                Quotient(net, pos.size), i - pos.entryIndex, reason)];
      realized := realized + net;
      position := None;
    }

    method FillPendingOrder(c: Candle, i: nat)
      modifies this
      ensures Now() == FillPending(cfg, old(Now()), c, i)
    {
      if pending.Some? {
        var side := pending.value;
        pending := None;
        if position.None? {
          position := Some(Opened(cfg, realized, side, c.open, i));
        } else if position.value.side != side {
          CloseAt(c.open, i, Signal);
          position := Some(Opened(cfg, realized, side, c.open, i));
        }
      }
    }

    method ApplyBrackets(c: Candle, i: nat)
      modifies this
      ensures Now() == CheckBrackets(cfg, old(Now()), c, i)
    {
      if position.Some? {
        var pos := position.value;
        if StopHit(cfg, pos, c) {
          CloseAt(StopPrice(cfg, pos), i, StopLoss);
        } else if TargetHit(cfg, pos, c) {
          CloseAt(TargetPrice(cfg, pos), i, TakeProfit);
        }
      }
    }

    method MarkToMarket(c: Candle)
      modifies this
      ensures Now() == Marked(old(Now()), c)
    {
      var equity := realized;
      if position.Some? {
        equity := realized + Unrealized(position, c.close);
      }
      curve := curve + [EquityPoint(c.time, equity, position.Some?)];
    }

    method ReplayBar(c: Candle, i: nat)
      modifies this
      ensures Now() == Bar(cfg, old(Now()), c, i)
    {
      FillPendingOrder(c, i);
      ApplyBrackets(c, i);
      MarkToMarket(c);
    }

    method Finish(candles: seq<Candle>)
      modifies this
      ensures Now() == Finished(cfg, candles, old(Now()))
    {
      if position.Some? && candles != [] && curve != [] {
        var last := candles[|candles| - 1];
        CloseAt(last.close, |candles| - 1, EndOfData);
        curve := curve[..|curve| - 1] + [EquityPoint(last.time, realized, false)];
      }
    }
  }

  /** One iteration: buffer the candle, replay the bar, and ask for the next decision except on the last bar. */
  method DecideBar(registry: CandleBuffer.CandleBufferRegistry, replay: Replay, strategy: Strategy,
      c: Candle, i: nat, isLast: bool)
    requires registry.Valid()
    modifies registry, registry.buffers.Values, replay
    ensures registry.Valid() && fresh(registry.buffers.Values - old(registry.buffers.Values))
    ensures registry.Contents() == CandleBuffer.Routed(old(registry.Contents()), c)
    ensures var marked := Bar(replay.cfg, old(replay.Now()), c, i);
            replay.Now() == if isLast then marked
                            else marked.(pending := strategy(registry.Contents()[KeyOf(c)], i))
  {
    var buffer := registry.Add(c);
    replay.ReplayBar(c, i);
    if !isLast {
      replay.pending := strategy(buffer.candles, i);
    }
  }

  lemma RegistryStep(candles: seq<Candle>, i: nat)
    requires i < |candles|
    ensures CandleBuffer.RegistryOf(candles[..i + 1])
            == CandleBuffer.Routed(CandleBuffer.RegistryOf(candles[..i]), candles[i])
    ensures KeyOf(candles[i]) in CandleBuffer.RegistryOf(candles[..i + 1])
  {
    assert candles[..i + 1][..i] == candles[..i];
  }

  lemma AfterStep(cfg: Config, candles: seq<Candle>, strategy: Strategy, i: nat)
    requires i < |candles| && KeyOf(candles[i]) in CandleBuffer.RegistryOf(candles[..i + 1])
    ensures var decide := DecisionsOf(candles, strategy);
            var marked := Bar(cfg, After(cfg, candles, decide, i), candles[i], i);
            After(cfg, candles, decide, i + 1)
            == if i == |candles| - 1 then marked
               else marked.(pending := strategy(CandleBuffer.RegistryOf(candles[..i + 1])[KeyOf(candles[i])], i))
  {
    assert DecisionsOf(candles, strategy)(i) == strategy(BufferAt(candles, i), i);
  }

  method RunWithDecider(candles: seq<Candle>, cfg: Config, strategy: Strategy) returns (run: State)
    ensures run == Run(cfg, candles, DecisionsOf(candles, strategy))
  {
    var registry := new CandleBuffer.CandleBufferRegistry();
    var replay := new Replay(cfg);
    ghost var decide := DecisionsOf(candles, strategy);
    for i := 0 to |candles|
      invariant registry.Valid() && fresh(registry.buffers.Values)
      invariant registry.Contents() == CandleBuffer.RegistryOf(candles[..i])
      invariant replay.cfg == cfg && replay.Now() == After(cfg, candles, decide, i)
    {
      RegistryStep(candles, i);
      AfterStep(cfg, candles, strategy, i);
      DecideBar(registry, replay, strategy, candles[i], i, i == |candles| - 1);
    }
    replay.Finish(candles);
    run := replay.Now();
  }
}
