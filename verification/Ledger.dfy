/** The risk agent's portfolio ledger: reservations, reconciliation, daily reset and loss limits. */
module Ledger {
  import opened Basics

  /** A UTC calendar day. */
  type Day = int

  datatype Portfolio = Portfolio(
    initial: real,
    cash: real,
    dailyStart: real,
    open: map<Symbol, real>,
    sides: map<Symbol, Side>,
    dailyPnl: real,
    lastReset: Day)

  // ------------------------------------------------------------------
  // Specification
  // ------------------------------------------------------------------

  function Initial(balance: real, today: Day): Portfolio {
    Portfolio(balance, balance, balance, map[], map[], 0.0, today)
  }

  /** Cash plus the cost basis of the open positions; not mark-to-market. */
  ghost function Value(p: Portfolio): real {
    p.cash + Total(p.open)
  }

  /** Python's `dict.get(symbol, "buy")` for a symbol that is open. */
  function SideOf(p: Portfolio, s: Symbol): Option<Side> {
    if s !in p.open then None
    else if s in p.sides then Some(p.sides[s])
    else Some(Buy)
  }

  function Opened(p: Portfolio, s: Symbol, size: real, side: Side): Portfolio {
    p.(cash := p.cash - size, open := p.open[s := size], sides := p.sides[s := side])
  }

  function Adjusted(p: Portfolio, s: Symbol, actual: real): Portfolio {
    if s !in p.open then p
    else p.(cash := p.cash + (p.open[s] - actual), open := p.open[s := actual])
  }

  function Closed(p: Portfolio, s: Symbol, pnl: real): Portfolio {
    var entry := if s in p.open then p.open[s] else 0.0;
    p.(cash := p.cash + (entry + pnl), open := p.open - {s}, sides := p.sides - {s},
       dailyPnl := p.dailyPnl + pnl)
  }

  ghost function DailyReset(p: Portfolio, today: Day): Portfolio {
    if p.lastReset == today then p
    else p.(dailyStart := Value(p), dailyPnl := 0.0, lastReset := today)
  }

  ghost function DailyLoss(p: Portfolio): real {
    if p.dailyStart == 0.0 then 0.0 else (p.dailyStart - Value(p)) / p.dailyStart
  }

  ghost function Drawdown(p: Portfolio): real {
    if p.initial == 0.0 then 0.0 else (p.initial - Value(p)) / p.initial
  }

  // ------------------------------------------------------------------
  // Effect of each operation on the portfolio value
  // ------------------------------------------------------------------

  lemma OpenKeepsValue(p: Portfolio, s: Symbol, size: real, side: Side)
    requires s !in p.open
    ensures Value(Opened(p, s, size, side)) == Value(p)
  {
    TotalInsert(p.open, s, size);
  }

  lemma AdjustKeepsValue(p: Portfolio, s: Symbol, actual: real)
    ensures Value(Adjusted(p, s, actual)) == Value(p)
  {
    if s in p.open {
      TotalInsert(p.open, s, actual);
    }
  }

  lemma CloseAddsPnl(p: Portfolio, s: Symbol, pnl: real)
    ensures Value(Closed(p, s, pnl)) == Value(p) + pnl
  {
    TotalDelete(p.open, s);
  }

  /**
   The books balance: every open position has a side and no other symbol has one, and the value is
   today's opening value plus today's realised PnL.
   */
  ghost predicate Balanced(p: Portfolio) {
    p.sides.Keys == p.open.Keys && Value(p) == p.dailyStart + p.dailyPnl
  }

  // ------------------------------------------------------------------
  // The monitor object
  // ------------------------------------------------------------------

  class DrawdownMonitor {
    const maxDailyLoss: real
    const maxDrawdown: real
    const initialBalance: real
    var cash: real
    var dailyStart: real
    var openPositions: map<Symbol, real>
    var positionSides: map<Symbol, Side>
    var dailyRealizedPnl: real
    var lastReset: Day

    function State(): Portfolio
      reads this
    {
      Portfolio(initialBalance, cash, dailyStart, openPositions, positionSides, dailyRealizedPnl, lastReset)
    }

    constructor (balance: real, maxDailyLoss: real, maxDrawdown: real, today: Day)
      ensures State() == Initial(balance, today)
      ensures this.maxDailyLoss == maxDailyLoss && this.maxDrawdown == maxDrawdown
    {
      this.maxDailyLoss, this.maxDrawdown := maxDailyLoss, maxDrawdown;
      initialBalance, cash, dailyStart := balance, balance, balance;
      openPositions, positionSides := map[], map[];
      dailyRealizedPnl, lastReset := 0.0, today;
    }

    /** portfolio_value_usd, summed in whatever order the dictionary yields its values. */
    method PortfolioValue() returns (value: real)
      ensures value == Value(State())
    {
      value := cash;
      var rest := openPositions;
      while rest != map[]
        invariant Value(State()) == value + Total(rest)
        decreases |rest|
      {
        var s :| s in rest;
        TotalRemove(rest, s);
        value := value + rest[s];
        rest := rest - {s};
      }
    }

    method OpenPosition(symbol: Symbol, size: real, side: Side)
      modifies this`cash, this`openPositions, this`positionSides
      ensures State() == Opened(old(State()), symbol, size, side)
    {
      cash := cash - size;
      openPositions := openPositions[symbol := size];
      positionSides := positionSides[symbol := side];
    }

    method AdjustPositionCost(symbol: Symbol, actual: real)
      modifies this`cash, this`openPositions
      ensures State() == Adjusted(old(State()), symbol, actual)
    {
      if symbol !in openPositions {
        return;
      }
      cash := cash + (openPositions[symbol] - actual);
      openPositions := openPositions[symbol := actual];
    }

    method ClosePosition(symbol: Symbol, pnl: real)
      modifies this`cash, this`openPositions, this`positionSides, this`dailyRealizedPnl
      ensures State() == Closed(old(State()), symbol, pnl)
    {
      var entry := 0.0;
      if symbol in openPositions {
        entry := openPositions[symbol];
      }
      openPositions := openPositions - {symbol};
      positionSides := positionSides - {symbol};
      cash := cash + (entry + pnl);
      dailyRealizedPnl := dailyRealizedPnl + pnl;
    }

    method MaybeResetDaily(today: Day)
      modifies this`dailyStart, this`dailyRealizedPnl, this`lastReset
      ensures State() == DailyReset(old(State()), today)
    {
      if lastReset != today {
        dailyStart := PortfolioValue();
        dailyRealizedPnl := 0.0;
        lastReset := today;
      }
    }

    method DailyLossLimitBreached(today: Day) returns (breached: bool)
      modifies this`dailyStart, this`dailyRealizedPnl, this`lastReset
      ensures State() == DailyReset(old(State()), today)
      ensures breached <==> DailyLoss(State()) >= maxDailyLoss
    {
      MaybeResetDaily(today);
      var value := PortfolioValue();
      var loss := if dailyStart == 0.0 then 0.0 else (dailyStart - value) / dailyStart;
      breached := loss >= maxDailyLoss;
    }

    method TotalDrawdownLimitBreached() returns (breached: bool)
      ensures breached <==> Drawdown(State()) >= maxDrawdown
    {
      var value := PortfolioValue();
      var drawdown := if initialBalance == 0.0 then 0.0 else (initialBalance - value) / initialBalance;
      breached := drawdown >= maxDrawdown;
    }
  }
}
