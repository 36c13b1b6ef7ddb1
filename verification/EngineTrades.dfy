/** What every trade of a backtest cost and earned, in terms of its own fields, the candles and the configuration. */
module EngineTrades {
  import opened Basics
  import opened Market
  import opened Engine
  import EngineRuns

  // ------------------------------------------------------------------
  // One trade
  // ------------------------------------------------------------------

  /** `n` is x cut to at most `hi`, and then raised to at least `lo`. */
  predicate Clamped(n: real, x: real, lo: real, hi: real) {
    n == if x > hi then (if hi > lo then hi else lo) else if x < lo then lo else x
  }

  /** Entered at the open, slipped up for a buy and down for a sell, for the notional's worth of units. */
  predicate EnteredAt(cfg: Config, side: Side, open: real, price: real, qty: real, notional: real) {
    && price == Times(open, if side == Buy then 1.0 + cfg.slippage else 1.0 - cfg.slippage)
    && if price > 0.0 then Times(qty, price) == notional else qty == 0.0
  }

  /** Left at `raw`, slipped down for a long and up for a short. */
  predicate LeftAt(cfg: Config, side: Side, raw: real, price: real) {
    price == Times(raw, if side == Buy then 1.0 - cfg.slippage else 1.0 + cfg.slippage)
  }

  /** The move in the trade's favour on its quantity, less the fee on both notionals. */
  predicate Earned(cfg: Config, t: Trade) {
    var fees := Times(cfg.fee, Times(t.entryPrice, t.quantity) + Times(t.exitPrice, t.quantity));
    && t.pnl == (if t.side == Buy then Times(t.exitPrice - t.entryPrice, t.quantity)
                 else Times(t.entryPrice - t.exitPrice, t.quantity)) - fees
    && if t.notional > 0.0 then Times(t.returnPct, t.notional) == t.pnl else t.returnPct == 0.0
  }

  /** The stop: a fraction of the entry price against the position. */
  function StopLevel(cfg: Config, side: Side, entry: real): real {
    Times(entry, if side == Buy then 1.0 - cfg.stopLoss else 1.0 + cfg.stopLoss)
  }

  /** The target: a fraction of the entry price in its favour. */
  function TargetLevel(cfg: Config, side: Side, entry: real): real {
    Times(entry, if side == Buy then 1.0 + cfg.takeProfit else 1.0 - cfg.takeProfit)
  }

  predicate Touches(c: Candle, side: Side, level: real) {
    if side == Buy then c.low <= level else c.high >= level
  }

  /** The price a trade leaves at, before slippage, and what bar i must have done for it. */
  predicate RawExit(cfg: Config, candles: seq<Candle>, side: Side, entry: real, i: nat, reason: ExitReason, raw: real) {
    i < |candles| &&
    match reason
    case Signal => raw == candles[i].open
    case StopLoss => raw == StopLevel(cfg, side, entry) && Touches(candles[i], side, raw)
    case TakeProfit =>
      && raw == TargetLevel(cfg, side, entry) && Touches(candles[i], side.Opposite(), raw)
      && !Touches(candles[i], side, StopLevel(cfg, side, entry))
    case EndOfData => i == |candles| - 1 && raw == candles[i].close
  }

  ghost predicate Explained(cfg: Config, candles: seq<Candle>, t: Trade) {
    && t.entryIndex < |candles|
    && EnteredAt(cfg, t.side, candles[t.entryIndex].open, t.entryPrice, t.quantity, t.notional)
    && (exists raw: real :: RawExit(cfg, candles, t.side, t.entryPrice, t.exitIndex, t.reason, raw)
                            && LeftAt(cfg, t.side, raw, t.exitPrice))
    && Earned(cfg, t)
  }

  predicate PositionExplained(cfg: Config, candles: seq<Candle>, pos: Position) {
    && pos.entryIndex < |candles|
    && EnteredAt(cfg, pos.side, candles[pos.entryIndex].open, pos.entryFill, pos.qty, pos.size)
  }

  /** The size of a position: the configured share of the equity realised when it was opened, clamped. */
  predicate SizedFor(cfg: Config, notional: real, earlier: seq<Trade>) {
    var equity := cfg.initialBalance + EngineRuns.PnlSum(earlier);
    Clamped(notional, Times(cfg.maxPositionPct, equity), cfg.minOrder, cfg.maxOrder)
  }

  // ------------------------------------------------------------------
  // Opening and closing
  // ------------------------------------------------------------------

  lemma QuotientTimes(a: real, b: real)
    requires b > 0.0
    ensures Times(Quotient(a, b), b) == a
  {
    var q := a / b;
    assert q * b == a;
  }

  lemma OpenedIsExplained(cfg: Config, candles: seq<Candle>, realized: real, side: Side, i: nat)
    requires i < |candles|
    ensures PositionExplained(cfg, candles, Opened(cfg, realized, side, candles[i].open, i))
    ensures Opened(cfg, realized, side, candles[i].open, i).side == side
  {
    var pos := Opened(cfg, realized, side, candles[i].open, i);
    if pos.entryFill > 0.0 {
      QuotientTimes(pos.size, pos.entryFill);
    }
  }

  lemma OpenedIsClamped(cfg: Config, realized: real, side: Side, raw: real, i: nat)
    ensures var pos := Opened(cfg, realized, side, raw, i);
            Clamped(pos.size, Times(cfg.maxPositionPct, realized), cfg.minOrder, cfg.maxOrder)
  {
    ClampIs(Times(cfg.maxPositionPct, realized), cfg.minOrder, cfg.maxOrder);
  }

  lemma ClampIs(x: real, lo: real, hi: real)
    ensures Clamped(Max(lo, Min(hi, x)), x, lo, hi)
  {
  }

  lemma ClosedIsExplained(cfg: Config, candles: seq<Candle>, pos: Position, raw: real, i: nat, reason: ExitReason)
    requires PositionExplained(cfg, candles, pos) && RawExit(cfg, candles, pos.side, pos.entryFill, i, reason, raw)
    ensures Explained(cfg, candles, TradeOf(cfg, pos, raw, i, reason))
    ensures TradeOf(cfg, pos, raw, i, reason).notional == pos.size
  {
    var t := TradeOf(cfg, pos, raw, i, reason);
    if pos.size > 0.0 {
      QuotientTimes(t.pnl, pos.size);
    }
    assert LeftAt(cfg, t.side, raw, t.exitPrice);
  }

  // ------------------------------------------------------------------
  // The whole run
  // ------------------------------------------------------------------

  ghost predicate AllExplained(cfg: Config, candles: seq<Candle>, st: State) {
    && st.realized == cfg.initialBalance + EngineRuns.PnlSum(st.trades)
    && (forall a :: 0 <= a < |st.trades| ==>
          Explained(cfg, candles, st.trades[a]) && SizedFor(cfg, st.trades[a].notional, st.trades[..a]))
    && (st.position.Some? ==>
          PositionExplained(cfg, candles, st.position.value) && SizedFor(cfg, st.position.value.size, st.trades))
  }

  lemma BookedIsExplained(cfg: Config, candles: seq<Candle>, st: State, t: Trade)
    requires AllExplained(cfg, candles, st) && Explained(cfg, candles, t) && SizedFor(cfg, t.notional, st.trades)
    ensures AllExplained(cfg, candles,
              st.(realized := st.realized + t.pnl, position := None, trades := st.trades + [t]))
  {
    EngineRuns.Appended(st.trades, t);
    var ts := st.trades + [t];
    forall a | 0 <= a < |ts| ensures Explained(cfg, candles, ts[a]) && SizedFor(cfg, ts[a].notional, ts[..a]) {
      if a < |st.trades| {
        assert ts[..a] == st.trades[..a] && ts[a] == st.trades[a];
      } else {
        assert ts[..a] == st.trades;
      }
    }
  }

  lemma CloseKeepsExplained(cfg: Config, candles: seq<Candle>, st: State, raw: real, i: nat, reason: ExitReason)
    requires AllExplained(cfg, candles, st) && st.position.Some?
    requires RawExit(cfg, candles, st.position.value.side, st.position.value.entryFill, i, reason, raw)
    ensures AllExplained(cfg, candles, ClosedBy(cfg, st, raw, i, reason))
  {
    ClosedIsExplained(cfg, candles, st.position.value, raw, i, reason);
    BookedIsExplained(cfg, candles, st, TradeOf(cfg, st.position.value, raw, i, reason));
  }

  lemma OpenKeepsExplained(cfg: Config, candles: seq<Candle>, st: State, side: Side, i: nat)
    requires AllExplained(cfg, candles, st) && i < |candles|
    ensures AllExplained(cfg, candles, st.(position := Some(Opened(cfg, st.realized, side, candles[i].open, i))))
  {
    OpenedIsExplained(cfg, candles, st.realized, side, i);
    OpenedIsClamped(cfg, st.realized, side, candles[i].open, i);
  }

  lemma FillKeepsExplained(cfg: Config, candles: seq<Candle>, st: State, i: nat)
    requires AllExplained(cfg, candles, st) && i < |candles|
    ensures AllExplained(cfg, candles, FillPending(cfg, st, candles[i], i))
  {
    if st.pending.Some? {
      var side, ready := st.pending.value, st.(pending := None);
      if st.position.None? {
        OpenKeepsExplained(cfg, candles, ready, side, i);
      } else if st.position.value.side != side {
        CloseKeepsExplained(cfg, candles, ready, candles[i].open, i, Signal);
        OpenKeepsExplained(cfg, candles, ClosedBy(cfg, ready, candles[i].open, i, Signal), side, i);
      }
    }
  }

  lemma BracketsKeepExplained(cfg: Config, candles: seq<Candle>, st: State, i: nat)
    requires AllExplained(cfg, candles, st) && i < |candles|
    ensures AllExplained(cfg, candles, CheckBrackets(cfg, st, candles[i], i))
  {
    if st.position.Some? {
      var pos := st.position.value;
      LevelsAre(cfg, pos);
      if StopHit(cfg, pos, candles[i]) {
        CloseKeepsExplained(cfg, candles, st, StopPrice(cfg, pos), i, StopLoss);
      } else if TargetHit(cfg, pos, candles[i]) {
        CloseKeepsExplained(cfg, candles, st, TargetPrice(cfg, pos), i, TakeProfit);
      }
    }
  }

  lemma LevelsAre(cfg: Config, pos: Position)
    ensures StopPrice(cfg, pos) == StopLevel(cfg, pos.side, pos.entryFill)
    ensures TargetPrice(cfg, pos) == TargetLevel(cfg, pos.side, pos.entryFill)
  {
  }

  lemma BarKeepsExplained(cfg: Config, candles: seq<Candle>, st: State, i: nat)
    requires AllExplained(cfg, candles, st) && i < |candles|
    ensures AllExplained(cfg, candles, Bar(cfg, st, candles[i], i))
  {
    FillKeepsExplained(cfg, candles, st, i);
    BracketsKeepExplained(cfg, candles, FillPending(cfg, st, candles[i], i), i);
  }

  lemma AfterIsExplained(cfg: Config, candles: seq<Candle>, decide: Decisions, k: nat)
    requires k <= |candles|
    ensures AllExplained(cfg, candles, After(cfg, candles, decide, k))
  {
    var inv := (st: State, i: nat) => AllExplained(cfg, candles, st);
    forall st: State, i: nat | i < |candles| && inv(st, i) ensures inv(Bar(cfg, st, candles[i], i), i + 1) {
      BarKeepsExplained(cfg, candles, st, i);
    }
    EngineRuns.RunInvariant(cfg, candles, decide, inv, k);
  }

  lemma FinishKeepsExplained(cfg: Config, candles: seq<Candle>, st: State)
    requires AllExplained(cfg, candles, st)
    ensures AllExplained(cfg, candles, Finished(cfg, candles, st))
  {
    if st.position.Some? && candles != [] && st.curve != [] {
      CloseKeepsExplained(cfg, candles, st, candles[|candles| - 1].close, |candles| - 1, EndOfData);
    }
  }

  /**
   Every trade of a run: it entered at an open with the slippage against it, for the configured share of
   the equity realised by then, clamped; it left at an open, a touched stop, a touched target or the last
   close, with the slippage against it; it earned the move on its quantity less the fee on both notionals.
   */
  lemma TradesAreExplained(cfg: Config, candles: seq<Candle>, decide: Decisions, a: nat)
    requires a < |Run(cfg, candles, decide).trades|
    ensures var ts := Run(cfg, candles, decide).trades;
            Explained(cfg, candles, ts[a]) && SizedFor(cfg, ts[a].notional, ts[..a])
  {
    AfterIsExplained(cfg, candles, decide, |candles|);
    FinishKeepsExplained(cfg, candles, After(cfg, candles, decide, |candles|));
  }

  /** The equity of a bar with an open position adds the move from its entry to the close on its quantity. */
  lemma EquityIsMarked(cfg: Config, candles: seq<Candle>, decide: Decisions, j: nat)
    requires j + 1 < |candles|
    ensures var r, st := Run(cfg, candles, decide), After(cfg, candles, decide, j + 1);
            && j < |r.curve| && r.curve[j].time == candles[j].time && r.curve[j].inMarket == st.position.Some?
            && (st.position.None? ==> r.curve[j].equity == cfg.initialBalance + EngineRuns.PnlSum(st.trades))
            && (st.position.Some? ==>
                  var pos, close := st.position.value, candles[j].close;
                  && PositionExplained(cfg, candles, pos)
                  && r.curve[j].equity == cfg.initialBalance + EngineRuns.PnlSum(st.trades)
                       + Times(if pos.side == Buy then close - pos.entryFill else pos.entryFill - close, pos.qty))
  {
    EngineRuns.PointAccounts(cfg, candles, decide, j);
    EngineRuns.PointTime(cfg, candles, decide, j);
    AfterIsExplained(cfg, candles, decide, j + 1);
  }
}
