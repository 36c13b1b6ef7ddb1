/** What trading costs in the backtest: stops never gain, and neither does a market that does not move. */
module EngineCosts {
  import opened Basics
  import opened Market
  import opened Engine
  import EngineRuns

  /** Fees, slippage, bracket distances and the minimum order are not negative, and no more than all of a price. */
  predicate Sane(cfg: Config) {
    && cfg.fee >= 0.0 && 0.0 <= cfg.slippage <= 1.0 && 0.0 <= cfg.stopLoss <= 1.0
    && cfg.takeProfit >= 0.0 && cfg.minOrder >= 0.0
  }

  predicate Backed(pos: Position) {
    pos.entryFill >= 0.0 && pos.qty >= 0.0
  }

  lemma TimesOrder(q: real, x: real, y: real)
    requires q >= 0.0 && x <= y
    ensures Times(x, q) <= Times(y, q) && Times(q, x) <= Times(q, y)
  {
  }

  lemma TimesNonnegative(x: real, y: real)
    requires x >= 0.0 && y >= 0.0
    ensures Times(x, y) >= 0.0
  {
  }

  /** An exit on the wrong side of the entry loses, before and after fees. */
  lemma AdverseExitLoses(cfg: Config, pos: Position, exit: real)
    requires Sane(cfg) && Backed(pos) && exit >= 0.0
    requires if pos.side == Buy then exit <= pos.entryFill else exit >= pos.entryFill
    ensures NetPnl(cfg, pos, exit) <= 0.0
  {
    var gap := if pos.side == Buy then exit - pos.entryFill else pos.entryFill - exit;
    TimesOrder(pos.qty, gap, 0.0);
    TimesNonnegative(pos.entryFill, pos.qty);
    TimesNonnegative(exit, pos.qty);
    TimesNonnegative(cfg.fee, Times(pos.entryFill, pos.qty) + Times(exit, pos.qty));
  }

  lemma OpenedIsBacked(cfg: Config, realized: real, side: Side, raw: real, i: nat)
    requires Sane(cfg) && raw >= 0.0
    ensures Backed(Opened(cfg, realized, side, raw, i))
  {
    var pos := Opened(cfg, realized, side, raw, i);
    TimesNonnegative(raw, 1.0 + cfg.slippage);
    TimesNonnegative(raw, 1.0 - cfg.slippage);
    if pos.entryFill > 0.0 {
      assert pos.size / pos.entryFill >= 0.0;
    }
  }

  /** The stop of a long is at most its entry, that of a short at least, and slippage makes it worse. */
  lemma StopIsAdverse(cfg: Config, pos: Position)
    requires Sane(cfg) && Backed(pos)
    ensures NetPnl(cfg, pos, ExitFill(cfg, pos.side, StopPrice(cfg, pos))) <= 0.0
  {
    var raw := StopPrice(cfg, pos);
    var exit := ExitFill(cfg, pos.side, raw);
    if pos.side == Buy {
      TimesNonnegative(pos.entryFill, 1.0 - cfg.stopLoss);
      TimesNonnegative(raw, 1.0 - cfg.slippage);
      TimesOrder(pos.entryFill, 1.0 - cfg.stopLoss, 1.0);
      TimesOrder(raw, 1.0 - cfg.slippage, 1.0);
    } else {
      TimesOrder(pos.entryFill, 1.0, 1.0 + cfg.stopLoss);
      TimesOrder(raw, 1.0, 1.0 + cfg.slippage);
    }
    AdverseExitLoses(cfg, pos, exit);
  }

  // ------------------------------------------------------------------
  // Stops
  // ------------------------------------------------------------------

  ghost predicate StopsLose(st: State) {
    && (forall t :: t in st.trades && t.reason == StopLoss ==> t.pnl <= 0.0)
    && (st.position.Some? ==> Backed(st.position.value))
  }

  lemma BarKeepsStops(cfg: Config, st: State, c: Candle, k: nat)
    requires Sane(cfg) && StopsLose(st) && c.open >= 0.0
    ensures StopsLose(Bar(cfg, st, c, k))
  {
    if st.pending.Some? {
      OpenedIsBacked(cfg, st.realized, st.pending.value, c.open, k);
      if st.position.Some? {
        OpenedIsBacked(cfg, ClosedBy(cfg, st, c.open, k, Signal).realized, st.pending.value, c.open, k);
      }
    }
    var filled := FillPending(cfg, st, c, k);
    assert StopsLose(filled);
    if filled.position.Some? {
      StopIsAdverse(cfg, filled.position.value);
    }
    assert StopsLose(CheckBrackets(cfg, filled, c, k));
  }

  lemma AfterKeepsStops(cfg: Config, candles: seq<Candle>, decide: Decisions, k: nat)
    requires Sane(cfg) && k <= |candles| && forall i :: 0 <= i < |candles| ==> candles[i].open >= 0.0
    ensures StopsLose(After(cfg, candles, decide, k))
  {
    forall st: State, i: nat | i < |candles| && StopsLose(st) ensures StopsLose(Bar(cfg, st, candles[i], i)) {
      BarKeepsStops(cfg, st, candles[i], i);
    }
    EngineRuns.RunInvariant(cfg, candles, decide, (st: State, i: nat) => StopsLose(st), k);
  }

  /** No trade closed by its stop makes money, on either side, whatever the market does. */
  lemma StopsNeverGain(cfg: Config, candles: seq<Candle>, decide: Decisions)
    requires Sane(cfg) && forall i :: 0 <= i < |candles| ==> candles[i].open >= 0.0
    ensures forall t :: t in Run(cfg, candles, decide).trades && t.reason == StopLoss ==> t.pnl <= 0.0
  {
    AfterKeepsStops(cfg, candles, decide, |candles|);
  }

  // ------------------------------------------------------------------
  // A market that does not move
  // ------------------------------------------------------------------

  predicate Still(c: Candle, p: real) {
    c.open == p && c.high == p && c.low == p && c.close == p
  }

  /** Entered at price p, and no trade has gained so far. */
  ghost predicate NothingGained(cfg: Config, st: State, p: real) {
    && (forall a :: 0 <= a < |st.trades| ==> st.trades[a].pnl <= 0.0)
    && (st.position.Some? ==>
          Backed(st.position.value) && st.position.value.entryFill == EntryFill(cfg, st.position.value.side, p))
  }

  /** Whatever closes a position in a still market, the exit is no better than the price. */
  lemma ExitLoses(cfg: Config, pos: Position, p: real, raw: real)
    requires Sane(cfg) && p >= 0.0 && Backed(pos) && pos.entryFill == EntryFill(cfg, pos.side, p)
    requires if pos.side == Buy then 0.0 <= raw <= p else raw >= p
    ensures NetPnl(cfg, pos, ExitFill(cfg, pos.side, raw)) <= 0.0
  {
    TimesOrder(p, 1.0 - cfg.slippage, 1.0 + cfg.slippage);
    if pos.side == Buy {
      TimesOrder(1.0 - cfg.slippage, raw, p);
      TimesNonnegative(raw, 1.0 - cfg.slippage);
    } else {
      TimesOrder(1.0 + cfg.slippage, p, raw);
      TimesNonnegative(raw, 1.0 + cfg.slippage);
    }
    AdverseExitLoses(cfg, pos, ExitFill(cfg, pos.side, raw));
  }

  lemma TargetLoses(cfg: Config, pos: Position, c: Candle, p: real)
    requires Sane(cfg) && p >= 0.0 && Still(c, p) && Backed(pos) && pos.entryFill == EntryFill(cfg, pos.side, p)
    requires TargetHit(cfg, pos, c)
    ensures NetPnl(cfg, pos, ExitFill(cfg, pos.side, TargetPrice(cfg, pos))) <= 0.0
  {
    if pos.side == Buy {
      TimesNonnegative(pos.entryFill, 1.0 + cfg.takeProfit);
    }
    ExitLoses(cfg, pos, p, TargetPrice(cfg, pos));
  }

  lemma FillGainsNothing(cfg: Config, st: State, c: Candle, k: nat, p: real)
    requires Sane(cfg) && p >= 0.0 && Still(c, p) && NothingGained(cfg, st, p)
    ensures NothingGained(cfg, FillPending(cfg, st, c, k), p)
  {
    if st.pending.Some? {
      OpenedIsBacked(cfg, st.realized, st.pending.value, p, k);
      if st.position.Some? {
        ExitLoses(cfg, st.position.value, p, p);
        OpenedIsBacked(cfg, ClosedBy(cfg, st, p, k, Signal).realized, st.pending.value, p, k);
      }
    }
  }

  lemma BracketsGainNothing(cfg: Config, st: State, c: Candle, k: nat, p: real)
    requires Sane(cfg) && p >= 0.0 && Still(c, p) && NothingGained(cfg, st, p)
    ensures NothingGained(cfg, CheckBrackets(cfg, st, c, k), p)
  {
    if st.position.Some? {
      StopIsAdverse(cfg, st.position.value);
      if TargetHit(cfg, st.position.value, c) {
        TargetLoses(cfg, st.position.value, c, p);
      }
    }
  }

  lemma BarGainsNothing(cfg: Config, st: State, c: Candle, k: nat, p: real)
    requires Sane(cfg) && p >= 0.0 && Still(c, p) && NothingGained(cfg, st, p)
    ensures NothingGained(cfg, Bar(cfg, st, c, k), p)
  {
    FillGainsNothing(cfg, st, c, k, p);
    BracketsGainNothing(cfg, FillPending(cfg, st, c, k), c, k, p);
  }

  lemma AfterGainsNothing(cfg: Config, candles: seq<Candle>, decide: Decisions, k: nat, p: real)
    requires Sane(cfg) && p >= 0.0 && k <= |candles| && forall i :: 0 <= i < |candles| ==> Still(candles[i], p)
    ensures NothingGained(cfg, After(cfg, candles, decide, k), p)
  {
    var inv := (st: State, i: nat) => NothingGained(cfg, st, p);
    forall st: State, i: nat | i < |candles| && inv(st, i) ensures inv(Bar(cfg, st, candles[i], i), i + 1) {
      assert Still(candles[i], p);
      BarGainsNothing(cfg, st, candles[i], i, p);
    }
    EngineRuns.RunInvariant(cfg, candles, decide, inv, k);
  }

  lemma {:induction false} LossesSum(ts: seq<Trade>)
    requires forall a :: 0 <= a < |ts| ==> ts[a].pnl <= 0.0
    ensures EngineRuns.PnlSum(ts) <= 0.0
  {
    if ts != [] {
      LossesSum(ts[..|ts| - 1]);
    }
  }

  /** An open position is not in profit either. */
  lemma StillPositionLoses(cfg: Config, st: State, p: real)
    requires Sane(cfg) && p >= 0.0 && NothingGained(cfg, st, p)
    ensures Unrealized(st.position, p) <= 0.0
  {
    if st.position.Some? {
      var pos := st.position.value;
      TimesOrder(p, 1.0, 1.0 + cfg.slippage);
      TimesOrder(p, 1.0 - cfg.slippage, 1.0);
      TimesOrder(pos.qty, if pos.side == Buy then p - pos.entryFill else pos.entryFill - p, 0.0);
    }
  }

  lemma OpenPointLoses(cfg: Config, candles: seq<Candle>, decide: Decisions, p: real, j: nat)
    requires Sane(cfg) && p >= 0.0 && j + 1 < |candles|
    requires forall i :: 0 <= i < |candles| ==> Still(candles[i], p)
    ensures j < |Run(cfg, candles, decide).curve|
    ensures Run(cfg, candles, decide).curve[j].equity <= cfg.initialBalance
  {
    assert Still(candles[j], p);
    EngineRuns.PointAccounts(cfg, candles, decide, j);
    AfterGainsNothing(cfg, candles, decide, j + 1, p);
    LossesSum(After(cfg, candles, decide, j + 1).trades);
    StillPositionLoses(cfg, After(cfg, candles, decide, j + 1), p);
  }

  lemma FinalTradesLose(cfg: Config, candles: seq<Candle>, st: State, p: real)
    requires Sane(cfg) && p >= 0.0 && NothingGained(cfg, st, p)
    requires candles != [] ==> Still(candles[|candles| - 1], p)
    ensures EngineRuns.PnlSum(Finished(cfg, candles, st).trades) <= 0.0
  {
    if st.position.Some? {
      ExitLoses(cfg, st.position.value, p, p);
    }
    LossesSum(Finished(cfg, candles, st).trades);
  }

  /** No free lunch: where every price is the same, no strategy's equity is ever above the initial balance. */
  lemma StillMarketNeverGains(cfg: Config, candles: seq<Candle>, decide: Decisions, p: real, j: nat)
    requires Sane(cfg) && p >= 0.0 && j < |candles|
    requires forall i :: 0 <= i < |candles| ==> Still(candles[i], p)
    ensures j < |Run(cfg, candles, decide).curve|
    ensures Run(cfg, candles, decide).curve[j].equity <= cfg.initialBalance
  {
    if j + 1 < |candles| {
      OpenPointLoses(cfg, candles, decide, p, j);
    } else {
      EngineRuns.FinalAccounts(cfg, candles, decide);
      AfterGainsNothing(cfg, candles, decide, |candles|, p);
      FinalTradesLose(cfg, candles, After(cfg, candles, decide, |candles|), p);
    }
  }
}
