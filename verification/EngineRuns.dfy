/** What every backtest run satisfies: accounting, fill timing, and no lookahead. */
module EngineRuns {
  import opened Basics
  import opened Market
  import opened Engine

  // ------------------------------------------------------------------
  // Sums over a run
  // ------------------------------------------------------------------

  function PnlSum(ts: seq<Trade>): real {
    if ts == [] then 0.0 else PnlSum(ts[..|ts| - 1]) + ts[|ts| - 1].pnl
  }

  function BarsHeld(ts: seq<Trade>): int {
    if ts == [] then 0 else BarsHeld(ts[..|ts| - 1]) + ts[|ts| - 1].barsHeld
  }

  function InMarket(ps: seq<EquityPoint>): int {
    if ps == [] then 0 else InMarket(ps[..|ps| - 1]) + if ps[|ps| - 1].inMarket then 1 else 0
  }

  lemma Appended(ts: seq<Trade>, t: Trade)
    ensures PnlSum(ts + [t]) == PnlSum(ts) + t.pnl
    ensures BarsHeld(ts + [t]) == BarsHeld(ts) + t.barsHeld
  {
    assert (ts + [t])[..|ts|] == ts;
  }

  lemma PointAppended(ps: seq<EquityPoint>, p: EquityPoint)
    ensures InMarket(ps + [p]) == InMarket(ps) + if p.inMarket then 1 else 0
  {
    assert (ps + [p])[..|ps|] == ps;
  }

  // ------------------------------------------------------------------
  // Induction over the bars
  // ------------------------------------------------------------------

  /**
   What holds at the start, is kept by every bar, and does not depend on the pending order holds after
   any number of bars, whatever is decided.
   */
  lemma {:induction false} RunInvariant(cfg: Config, candles: seq<Candle>, decide: Decisions,
      inv: (State, nat) -> bool, k: nat)
    requires k <= |candles| && inv(Start(cfg), 0)
    requires forall st: State, i: nat :: i < |candles| && inv(st, i) ==> inv(Bar(cfg, st, candles[i], i), i + 1)
    requires forall st: State, i: nat, side: Option<Side> :: inv(st, i) ==> inv(st.(pending := side), i)
    ensures inv(After(cfg, candles, decide, k), k)
  {
    if k > 0 {
      RunInvariant(cfg, candles, decide, inv, k - 1);
      var st := Bar(cfg, After(cfg, candles, decide, k - 1), candles[k - 1], k - 1);
      assert inv(st, k - 1 + 1);
      assert inv(st.(pending := decide(k - 1)), k);
    }
  }

  // ------------------------------------------------------------------
  // The books of the loop
  // ------------------------------------------------------------------

  /** Trades are in order, never overlap, and hold for as many bars as they span. */
  predicate InOrder(ts: seq<Trade>) {
    && (forall a :: 0 <= a < |ts| ==>
          ts[a].entryIndex <= ts[a].exitIndex && ts[a].barsHeld == ts[a].exitIndex - ts[a].entryIndex)
    && (forall a, b :: 0 <= a < b < |ts| ==> ts[a].exitIndex <= ts[b].entryIndex)
  }

  /** The books after k bars, or part of the way through bar k. */
  ghost predicate Books(cfg: Config, st: State, k: nat) {
    && |st.curve| == k && InOrder(st.trades)
    && st.realized == cfg.initialBalance + PnlSum(st.trades)
    && (forall a :: 0 <= a < |st.trades| ==> st.trades[a].exitIndex <= k)
    && (st.position.Some? ==>
          && st.position.value.entryIndex <= k
          && forall a :: 0 <= a < |st.trades| ==> st.trades[a].exitIndex <= st.position.value.entryIndex)
    && InMarket(st.curve) == BarsHeld(st.trades)
                             + if st.position.Some? then k - st.position.value.entryIndex else 0
  }

  lemma InOrderAppended(ts: seq<Trade>, t: Trade)
    requires InOrder(ts) && t.entryIndex <= t.exitIndex && t.barsHeld == t.exitIndex - t.entryIndex
    requires forall a :: 0 <= a < |ts| ==> ts[a].exitIndex <= t.entryIndex
    ensures InOrder(ts + [t])
  {
  }

  /** Any trade that spans the open position to bar k may be booked, whatever its PnL. */
  lemma BookedKeepsBooks(cfg: Config, st: State, t: Trade, k: nat)
    requires Books(cfg, st, k) && st.position.Some? && t.entryIndex == st.position.value.entryIndex
    requires t.exitIndex == k && t.barsHeld == k - t.entryIndex
    ensures Books(cfg, st.(realized := st.realized + t.pnl, position := None, trades := st.trades + [t]), k)
  {
    Appended(st.trades, t);
    InOrderAppended(st.trades, t);
  }

  lemma CloseKeepsBooks(cfg: Config, st: State, raw: real, k: nat, reason: ExitReason)
    requires Books(cfg, st, k) && st.position.Some?
    ensures Books(cfg, ClosedBy(cfg, st, raw, k, reason), k)
  {
    BookedKeepsBooks(cfg, st, TradeOf(cfg, st.position.value, raw, k, reason), k);
  }

  lemma OpenKeepsBooks(cfg: Config, st: State, pos: Position, k: nat)
    requires Books(cfg, st, k) && st.position.None? && pos.entryIndex == k
    ensures Books(cfg, st.(position := Some(pos)), k)
  {
  }

  lemma FillKeepsBooks(cfg: Config, st: State, c: Candle, k: nat)
    requires Books(cfg, st, k)
    ensures Books(cfg, FillPending(cfg, st, c, k), k)
  {
    if st.pending.Some? {
      var side, ready := st.pending.value, st.(pending := None);
      assert Books(cfg, ready, k);
      if st.position.None? {
        OpenKeepsBooks(cfg, ready, Opened(cfg, st.realized, side, c.open, k), k);
      } else if st.position.value.side != side {
        CloseKeepsBooks(cfg, ready, c.open, k, Signal);
        var flat := ClosedBy(cfg, ready, c.open, k, Signal);
        OpenKeepsBooks(cfg, flat, Opened(cfg, flat.realized, side, c.open, k), k);
      }
    }
  }

  lemma BracketsKeepBooks(cfg: Config, st: State, c: Candle, k: nat)
    requires Books(cfg, st, k)
    ensures Books(cfg, CheckBrackets(cfg, st, c, k), k)
  {
    if st.position.Some? {
      CloseKeepsBooks(cfg, st, StopPrice(cfg, st.position.value), k, StopLoss);
      CloseKeepsBooks(cfg, st, TargetPrice(cfg, st.position.value), k, TakeProfit);
    }
  }

  lemma BarKeepsBooks(cfg: Config, st: State, c: Candle, k: nat)
    requires Books(cfg, st, k)
    ensures Books(cfg, Bar(cfg, st, c, k), k + 1)
  {
    FillKeepsBooks(cfg, st, c, k);
    var filled := FillPending(cfg, st, c, k);
    BracketsKeepBooks(cfg, filled, c, k);
    var checked := CheckBrackets(cfg, filled, c, k);
    PointAppended(checked.curve, Marked(checked, c).curve[|checked.curve|]);
  }

  lemma BooksAfter(cfg: Config, candles: seq<Candle>, decide: Decisions, k: nat)
    requires k <= |candles|
    ensures Books(cfg, After(cfg, candles, decide, k), k)
  {
    var inv := (st: State, i: nat) => Books(cfg, st, i);
    forall st: State, i: nat | i < |candles| && inv(st, i) ensures inv(Bar(cfg, st, candles[i], i), i + 1) {
      BarKeepsBooks(cfg, st, candles[i], i);
    }
    RunInvariant(cfg, candles, decide, inv, k);
  }

  // ------------------------------------------------------------------
  // The past is never rewritten
  // ------------------------------------------------------------------

  /** Bars from k on only append: points to the curve, trades exiting at k or later. */
  ghost predicate Extends(st: State, later: State, k: nat) {
    && st.curve <= later.curve && st.trades <= later.trades
    && forall a :: |st.trades| <= a < |later.trades| ==> later.trades[a].exitIndex >= k
  }

  lemma BarExtends(cfg: Config, st: State, c: Candle, k: nat)
    ensures Extends(st, Bar(cfg, st, c, k), k)
  {
    var filled := FillPending(cfg, st, c, k);
    assert Extends(st, filled, k);
    var checked := CheckBrackets(cfg, filled, c, k);
    assert Extends(filled, checked, k);
  }

  lemma StepExtends(cfg: Config, candles: seq<Candle>, decide: Decisions, k: nat)
    requires k < |candles|
    ensures Extends(After(cfg, candles, decide, k), After(cfg, candles, decide, k + 1), k)
  {
    BarExtends(cfg, After(cfg, candles, decide, k), candles[k], k);
  }

  lemma ExtendsTransitive(a: State, b: State, c: State, j: nat, k: nat)
    requires j <= k && Extends(a, b, j) && Extends(b, c, k)
    ensures Extends(a, c, j)
  {
  }

  lemma {:induction false} ChainExtends(states: seq<State>, j: nat, k: nat)
    requires j <= k < |states|
    requires forall i :: 0 <= i < |states| - 1 ==> Extends(states[i], states[i + 1], i)
    ensures Extends(states[j], states[k], j)
    decreases k
  {
    if j < k {
      ChainExtends(states, j, k - 1);
      assert Extends(states[k - 1], states[k - 1 + 1], k - 1);
      ExtendsTransitive(states[j], states[k - 1], states[k], j, k - 1);
    }
  }

  lemma AfterExtends(cfg: Config, candles: seq<Candle>, decide: Decisions, j: nat, k: nat)
    requires j <= k <= |candles|
    ensures Extends(After(cfg, candles, decide, j), After(cfg, candles, decide, k), j)
  {
    var states := seq(|candles| + 1, i requires 0 <= i <= |candles| => After(cfg, candles, decide, i));
    forall i | 0 <= i < |states| - 1 ensures Extends(states[i], states[i + 1], i) {
      StepExtends(cfg, candles, decide, i);
    }
    ChainExtends(states, j, k);
  }

  /** Everything the first k bars produced lies before bar k. */
  predicate AllBefore(st: State, k: nat) {
    && (forall a :: 0 <= a < |st.trades| ==> st.trades[a].exitIndex < k)
    && (st.position.Some? ==> st.position.value.entryIndex < k)
    && (st.curve != [] ==> st.curve[|st.curve| - 1].inMarket == st.position.Some?)
  }

  lemma BarIsBefore(cfg: Config, st: State, c: Candle, k: nat)
    requires AllBefore(st, k)
    ensures AllBefore(Bar(cfg, st, c, k), k + 1)
  {
    var filled := FillPending(cfg, st, c, k);
    var checked := CheckBrackets(cfg, filled, c, k);
    assert forall a :: 0 <= a < |checked.trades| ==> checked.trades[a].exitIndex <= k;
  }

  lemma AfterIsBefore(cfg: Config, candles: seq<Candle>, decide: Decisions, k: nat)
    requires k <= |candles|
    ensures AllBefore(After(cfg, candles, decide, k), k)
  {
    var inv := (st: State, i: nat) => AllBefore(st, i);
    forall st: State, i: nat | i < |candles| && inv(st, i) ensures inv(Bar(cfg, st, candles[i], i), i + 1) {
      BarIsBefore(cfg, st, candles[i], i);
    }
    RunInvariant(cfg, candles, decide, inv, k);
  }

  /** The trades a finished run had closed before bar k are those of its first k bars. */
  lemma ClosedByThen(cfg: Config, candles: seq<Candle>, decide: Decisions, k: nat)
    requires k < |candles|
    ensures var early, r := After(cfg, candles, decide, k), Run(cfg, candles, decide);
            && early.trades <= r.trades
            && forall a :: 0 <= a < |r.trades| ==> (r.trades[a].exitIndex < k <==> a < |early.trades|)
  {
    AfterIsBefore(cfg, candles, decide, k);
    AfterExtends(cfg, candles, decide, k, |candles|);
  }

  // ------------------------------------------------------------------
  // Accounting
  // ------------------------------------------------------------------

  /** The point recorded at bar j: realised equity so far plus the open position at the close. */
  lemma PointAt(cfg: Config, candles: seq<Candle>, decide: Decisions, j: nat, k: nat)
    requires j < k <= |candles|
    ensures var st := After(cfg, candles, decide, j + 1);
            && j < |After(cfg, candles, decide, k).curve|
            && After(cfg, candles, decide, k).curve[j]
               == EquityPoint(candles[j].time,
                    cfg.initialBalance + PnlSum(st.trades) + Unrealized(st.position, candles[j].close),
                    st.position.Some?)
  {
    BooksAfter(cfg, candles, decide, j);
    BooksAfter(cfg, candles, decide, j + 1);
    AfterExtends(cfg, candles, decide, j + 1, k);
  }

  lemma PointTime(cfg: Config, candles: seq<Candle>, decide: Decisions, j: nat)
    requires j + 1 < |candles|
    ensures j < |Run(cfg, candles, decide).curve| && Run(cfg, candles, decide).curve[j].time == candles[j].time
  {
    BooksAfter(cfg, candles, decide, |candles|);
    PointAt(cfg, candles, decide, j, |candles|);
  }

  /** The final equity, the order of the trades, and the time spent in the market. */
  lemma FinalAccounts(cfg: Config, candles: seq<Candle>, decide: Decisions)
    requires candles != []
    ensures var r := Run(cfg, candles, decide);
            && |r.curve| == |candles| && InOrder(r.trades)
            && r.curve[|candles| - 1].equity == cfg.initialBalance + PnlSum(r.trades)
            && InMarket(r.curve) == BarsHeld(r.trades)
  {
    var n := |candles|;
    BooksAfter(cfg, candles, decide, n);
    AfterIsBefore(cfg, candles, decide, n);
    PointAt(cfg, candles, decide, n - 1, n);
    FinishKeepsBooks(cfg, candles, After(cfg, candles, decide, n));
  }

  /** The equity at any bar but the last. */
  lemma PointAccounts(cfg: Config, candles: seq<Candle>, decide: Decisions, j: nat)
    requires j + 1 < |candles|
    ensures var r, st := Run(cfg, candles, decide), After(cfg, candles, decide, j + 1);
            && j < |r.curve|
            && r.curve[j].equity == cfg.initialBalance + PnlSum(st.trades) + Unrealized(st.position, candles[j].close)
            && r.curve[j].inMarket == st.position.Some?
            && st.trades <= r.trades
            && (forall a :: 0 <= a < |r.trades| ==> (r.trades[a].exitIndex <= j <==> a < |st.trades|))
  {
    BooksAfter(cfg, candles, decide, |candles|);
    PointAt(cfg, candles, decide, j, |candles|);
    ClosedByThen(cfg, candles, decide, j + 1);
  }

  /**
   Engine accounting. At every bar but the last, equity is the initial balance plus the PnL of the
   trades closed by then plus the unrealised PnL of the open position; final equity is the initial
   balance plus the PnL of all trades. Trades never overlap, and the number of points in the market is
   the total number of bars held.
   */
  lemma EngineAccounting(cfg: Config, candles: seq<Candle>, decide: Decisions, j: nat)
    requires j < |candles|
    ensures var r := Run(cfg, candles, decide);
            && |r.curve| == |candles| && InOrder(r.trades) && InMarket(r.curve) == BarsHeld(r.trades)
            && if j == |candles| - 1 then r.curve[j].equity == cfg.initialBalance + PnlSum(r.trades)
               else
                 var st := After(cfg, candles, decide, j + 1);
                 && r.curve[j].equity
                    == cfg.initialBalance + PnlSum(st.trades) + Unrealized(st.position, candles[j].close)
                 && r.curve[j].inMarket == st.position.Some?
                 && st.trades <= r.trades
                 && forall a :: 0 <= a < |r.trades| ==> (r.trades[a].exitIndex <= j <==> a < |st.trades|)
  {
    FinalAccounts(cfg, candles, decide);
    if j < |candles| - 1 {
      PointAccounts(cfg, candles, decide, j);
    }
  }

  lemma FinishKeepsBooks(cfg: Config, candles: seq<Candle>, st: State)
    requires Books(cfg, st, |candles|) && candles != []
    requires st.position.Some? ==> st.position.value.entryIndex < |candles| && st.curve[|candles| - 1].inMarket
    requires forall a :: 0 <= a < |st.trades| ==> st.trades[a].exitIndex < |candles|
    ensures var r := Finished(cfg, candles, st);
            && |r.curve| == |candles| && InOrder(r.trades)
            && r.realized == cfg.initialBalance + PnlSum(r.trades)
            && InMarket(r.curve) == BarsHeld(r.trades)
  {
    if st.position.Some? {
      var t, p := FinishedShape(cfg, candles, st);
      LastTradeBooked(cfg, st, t, p, |candles|);
    }
  }

  lemma FinishedShape(cfg: Config, candles: seq<Candle>, st: State) returns (t: Trade, p: EquityPoint)
    requires st.position.Some? && candles != [] && |st.curve| == |candles|
    ensures Finished(cfg, candles, st)
            == State(st.realized + t.pnl, None, st.pending, st.curve[..|candles| - 1] + [p], st.trades + [t])
    ensures t.entryIndex == st.position.value.entryIndex && t.exitIndex == |candles| - 1
    ensures t.barsHeld == t.exitIndex - t.entryIndex && !p.inMarket
  {
    var last := candles[|candles| - 1];
    t := TradeOf(cfg, st.position.value, last.close, |candles| - 1, EndOfData);
    p := EquityPoint(last.time, st.realized + t.pnl, false);
  }

  /** Booking a trade that ends on the last bar, whatever its PnL, and rewriting that bar's point. */
  lemma LastTradeBooked(cfg: Config, st: State, t: Trade, p: EquityPoint, n: nat)
    requires n > 0 && Books(cfg, st, n) && st.position.Some? && st.curve[n - 1].inMarket && !p.inMarket
    requires t.entryIndex == st.position.value.entryIndex < n && t.exitIndex == n - 1
    requires t.barsHeld == n - 1 - t.entryIndex
    ensures InOrder(st.trades + [t]) && |st.curve[..n - 1] + [p]| == n
    ensures st.realized + t.pnl == cfg.initialBalance + PnlSum(st.trades + [t])
    ensures InMarket(st.curve[..n - 1] + [p]) == BarsHeld(st.trades + [t])
  {
    InOrderAppended(st.trades, t);
    Appended(st.trades, t);
    LastPointReplaced(st.curve, p);
  }

  lemma LastPointReplaced(curve: seq<EquityPoint>, p: EquityPoint)
    requires curve != [] && curve[|curve| - 1].inMarket && !p.inMarket
    ensures InMarket(curve[..|curve| - 1] + [p]) == InMarket(curve) - 1
  {
    PointAppended(curve[..|curve| - 1], p);
  }

  // ------------------------------------------------------------------
  // Fill timing
  // ------------------------------------------------------------------

  /** Entered at the open of bar e on the decision made at bar e - 1. */
  predicate EnteredOnDecision(cfg: Config, candles: seq<Candle>, decide: Decisions, side: Side, e: nat, fill: real) {
    0 < e < |candles| && decide(e - 1) == Some(side) && fill == EntryFill(cfg, side, candles[e].open)
  }

  /** Where and why a trade of the run may end. */
  predicate ExitedInTime(cfg: Config, candles: seq<Candle>, decide: Decisions, t: Trade)
    requires t.exitIndex < |candles|
  {
    var c, pos := candles[t.exitIndex], Position(t.side, t.entryPrice, t.quantity, t.entryIndex, t.notional);
    match t.reason
    case Signal =>
      && t.entryIndex < t.exitIndex && decide(t.exitIndex - 1) == Some(t.side.Opposite())
      && t.exitPrice == ExitFill(cfg, t.side, c.open)
    case StopLoss => StopHit(cfg, pos, c) && t.exitPrice == ExitFill(cfg, t.side, StopPrice(cfg, pos))
    case TakeProfit =>
      !StopHit(cfg, pos, c) && TargetHit(cfg, pos, c) && t.exitPrice == ExitFill(cfg, t.side, TargetPrice(cfg, pos))
    case EndOfData => t.exitIndex == |candles| - 1 && t.exitPrice == ExitFill(cfg, t.side, c.close)
  }

  predicate Timed(cfg: Config, candles: seq<Candle>, decide: Decisions, t: Trade) {
    && EnteredOnDecision(cfg, candles, decide, t.side, t.entryIndex, t.entryPrice)
    && t.exitIndex < |candles| && ExitedInTime(cfg, candles, decide, t)
  }

  ghost predicate AllTimed(cfg: Config, candles: seq<Candle>, decide: Decisions, st: State) {
    && (forall t :: t in st.trades ==> Timed(cfg, candles, decide, t))
    && (st.position.Some? ==>
          EnteredOnDecision(cfg, candles, decide, st.position.value.side, st.position.value.entryIndex,
            st.position.value.entryFill))
  }

  lemma BarKeepsTimed(cfg: Config, candles: seq<Candle>, decide: Decisions, st: State, k: nat)
    requires k < |candles| && AllTimed(cfg, candles, decide, st)
    requires st.pending.Some? ==> k > 0 && decide(k - 1) == st.pending
    requires st.position.Some? ==> st.position.value.entryIndex < k
    ensures AllTimed(cfg, candles, decide, Bar(cfg, st, candles[k], k))
    ensures Bar(cfg, st, candles[k], k).pending == None
  {
    var c := candles[k];
    var filled := FillPending(cfg, st, c, k);
    assert AllTimed(cfg, candles, decide, filled);
    var checked := CheckBrackets(cfg, filled, c, k);
    assert AllTimed(cfg, candles, decide, checked);
  }

  lemma {:induction false} AfterIsTimed(cfg: Config, candles: seq<Candle>, decide: Decisions, k: nat)
    requires k <= |candles|
    ensures AllTimed(cfg, candles, decide, After(cfg, candles, decide, k))
    ensures After(cfg, candles, decide, k).pending.Some? ==>
              k > 0 && decide(k - 1) == After(cfg, candles, decide, k).pending
  {
    if k > 0 {
      AfterIsTimed(cfg, candles, decide, k - 1);
      AfterIsBefore(cfg, candles, decide, k - 1);
      BarKeepsTimed(cfg, candles, decide, After(cfg, candles, decide, k - 1), k - 1);
    }
  }

  /**
   No same-bar fills: every trade of a run enters at the open of the bar after its decision; it leaves
   at the open of the bar after an opposite decision, at a bracket that bar touched (the stop first), or
   at the last close.
   */
  lemma FillsFollowDecisions(cfg: Config, candles: seq<Candle>, decide: Decisions)
    ensures forall t :: t in Run(cfg, candles, decide).trades ==> Timed(cfg, candles, decide, t)
  {
    AfterIsTimed(cfg, candles, decide, |candles|);
  }

  // ------------------------------------------------------------------
  // No lookahead
  // ------------------------------------------------------------------

  /** The series share their first m candles and the strategies their first m decisions. */
  ghost predicate AgreeBefore(c1: seq<Candle>, d1: Decisions, c2: seq<Candle>, d2: Decisions, m: nat) {
    && m < |c1| && m < |c2| && c1[..m] == c2[..m]
    && forall i :: 0 <= i < m ==> d1(i) == d2(i)
  }

  lemma {:induction false} SameState(cfg: Config, c1: seq<Candle>, d1: Decisions, c2: seq<Candle>, d2: Decisions,
      m: nat, k: nat)
    requires AgreeBefore(c1, d1, c2, d2, m) && k <= m
    ensures After(cfg, c1, d1, k) == After(cfg, c2, d2, k)
  {
    if k > 0 {
      SameState(cfg, c1, d1, c2, d2, m, k - 1);
      assert c1[..m][k - 1] == c2[..m][k - 1];
    }
  }

  /**
   Engine causality. Two runs whose series share the first m candles and whose decisions agree up to
   there have equal equity points 0..m-1 and the same trades closed by bar m-1, whatever comes after.
   */
  lemma EngineCausality(cfg: Config, c1: seq<Candle>, d1: Decisions, c2: seq<Candle>, d2: Decisions, m: nat)
    returns (closed: seq<Trade>)
    requires AgreeBefore(c1, d1, c2, d2, m)
    ensures var r1, r2 := Run(cfg, c1, d1), Run(cfg, c2, d2);
            && m <= |r1.curve| && m <= |r2.curve| && r1.curve[..m] == r2.curve[..m]
            && closed <= r1.trades && closed <= r2.trades
            && (forall a :: 0 <= a < |r1.trades| ==> (r1.trades[a].exitIndex < m <==> a < |closed|))
            && (forall a :: 0 <= a < |r2.trades| ==> (r2.trades[a].exitIndex < m <==> a < |closed|))
  {
    SameState(cfg, c1, d1, c2, d2, m, m);
    closed := After(cfg, c1, d1, m).trades;
    ClosedByThen(cfg, c1, d1, m);
    ClosedByThen(cfg, c2, d2, m);
    CurvePrefix(cfg, c1, d1, m);
    CurvePrefix(cfg, c2, d2, m);
  }

  lemma CurvePrefix(cfg: Config, candles: seq<Candle>, decide: Decisions, m: nat)
    requires m < |candles|
    ensures m <= |Run(cfg, candles, decide).curve|
    ensures Run(cfg, candles, decide).curve[..m] == After(cfg, candles, decide, m).curve
  {
    BooksAfter(cfg, candles, decide, m);
    BooksAfter(cfg, candles, decide, |candles|);
    AfterExtends(cfg, candles, decide, m, |candles|);
  }

  lemma SameBuffer(c1: seq<Candle>, c2: seq<Candle>, m: nat, i: nat)
    requires i < m <= |c1| && m <= |c2| && c1[..m] == c2[..m]
    ensures BufferAt(c1, i) == BufferAt(c2, i)
  {
    assert c1[..i + 1] == c1[..m][..i + 1] == c2[..m][..i + 1] == c2[..i + 1];
    assert c1[i] == c1[..m][i] == c2[..m][i] == c2[i];
  }

  /** A strategy that sees the rolling buffer and the bar number only cannot look ahead. */
  lemma BufferStrategyCausality(cfg: Config, strategy: Strategy, c1: seq<Candle>, c2: seq<Candle>, m: nat)
    returns (closed: seq<Trade>)
    requires m < |c1| && m < |c2| && c1[..m] == c2[..m]
    ensures var r1, r2 := Run(cfg, c1, DecisionsOf(c1, strategy)), Run(cfg, c2, DecisionsOf(c2, strategy));
            && m <= |r1.curve| && m <= |r2.curve| && r1.curve[..m] == r2.curve[..m]
            && closed <= r1.trades && closed <= r2.trades
            && (forall a :: 0 <= a < |r1.trades| ==> (r1.trades[a].exitIndex < m <==> a < |closed|))
            && (forall a :: 0 <= a < |r2.trades| ==> (r2.trades[a].exitIndex < m <==> a < |closed|))
  {
    forall i | 0 <= i < m ensures DecisionsOf(c1, strategy)(i) == DecisionsOf(c2, strategy)(i) {
      SameBuffer(c1, c2, m, i);
    }
    closed := EngineCausality(cfg, c1, DecisionsOf(c1, strategy), c2, DecisionsOf(c2, strategy), m);
  }
}
