/**
 The trade-ledger protocol: the risk ledger and the broker are two replicas of the portfolio joined
 by two FIFO channels, assessments one way and results the other, while the stop-loss monitor closes
 positions at any moment. A broker mutation and the publication of its result are one step.
 */
module Protocol {
  import opened Basics
  import opened Money
  import opened Trading
  import opened RecentIds
  import opened Ledger
  import opened RiskAgent
  import opened PaperBroker
  import Events = BrokerRuns
  import RiskRuns
  import opened ExecutionAgent

  // ------------------------------------------------------------------
  // The system and its steps
  // ------------------------------------------------------------------

  /**
   `used` holds every proposal id seen so far, `delivered` the results applied, in order of first
   delivery, and `closes` counts the closing fills of the broker.
   */
  datatype System = System(
    risk: RiskState,
    broker: BrokerState,
    pending: seq<RiskAssessment>,
    results: seq<ExecutionResult>,
    delivered: seq<ExecutionResult>,
    used: set<Id>,
    nextResult: Id,
    closes: nat)

  datatype Step =
    | Propose(p: TradeProposal, today: Day, now: real)
    | ExecuteHead(draw: FillDraw)
    | SkipHead
    | MonitorClose(symbol: Symbol, price: Option<real>)
    | DeliverHead
    | Redeliver(k: nat)
    | Override

  function Start(balance: real, today: Day): System {
    System(Fresh(balance, today), BrokerState(balance, map[], [], map[]), [], [], [], {}, 0, 0)
  }

  function ClosingFills(rs: seq<ExecutionResult>): nat {
    if rs != [] && rs[0].realizedPnl.Some? then 1 else 0
  }

  ghost function Next(cfg: RiskConfig, y: System, t: Step): System
    requires Enabled(y, t)
  {
    match t
    case Propose(p, today, now) =>
      var (risk, a) := Evaluate(cfg, y.risk, p, today, now);
      y.(risk := risk, pending := y.pending + [a], used := y.used + {p.id})
    case ExecuteHead(draw) =>
      var (b, rs) := Execute(y.broker, y.pending[0], y.nextResult, draw);
      y.(broker := b, pending := y.pending[1..], results := y.results + rs,
         nextResult := y.nextResult + 1, closes := y.closes + ClosingFills(rs))
    case SkipHead => y.(pending := y.pending[1..])
    case MonitorClose(symbol, price) =>
      var (b, r) := ClosePosition(y.broker, symbol, price, y.nextResult);
      y.(broker := b, results := y.results + Published(r),
         nextResult := y.nextResult + 1, closes := y.closes + ClosingFills(Published(r)))
    case DeliverHead =>
      y.(risk := Apply(y.risk, y.results[0]).0, results := y.results[1..], delivered := y.delivered + [y.results[0]])
    case Redeliver(k) => y.(risk := Apply(y.risk, y.delivered[k]).0)
    case Override => y.(risk := y.risk.(halted := true))
  }

  predicate Enabled(y: System, t: Step) {
    match t
    case ExecuteHead(_) => y.pending != []
    case SkipHead => y.pending != []
    case DeliverHead => y.results != []
    case Redeliver(k) => k < |y.delivered|
    case _ => true
  }

  // ------------------------------------------------------------------
  // Scheduling hypotheses
  // ------------------------------------------------------------------

  /** The approved assessments of `s` not yet executed, oldest first. */
  function Awaiting(pending: seq<RiskAssessment>, s: Symbol): seq<RiskAssessment> {
    if pending == [] then []
    else if pending[0].IsApproved() && pending[0].proposal.symbol == s then [pending[0]] + Awaiting(pending[1..], s)
    else Awaiting(pending[1..], s)
  }

  /** The results of `s` not yet delivered, oldest first. */
  function InFlight(results: seq<ExecutionResult>, s: Symbol): seq<ExecutionResult> {
    if results == [] then []
    else if results[0].symbol == s then [results[0]] + InFlight(results[1..], s)
    else InFlight(results[1..], s)
  }

  /** A result of an assessment, as opposed to a monitor close. */
  predicate IsAnswer(r: ExecutionResult) {
    r.proposal.Some?
  }

  /**
   Every assessment of `s` that awaits execution, or has its result in flight, is for the side the
   ledger shows. So nothing is unresolved while the ledger is flat, and no close while it is not.
   */
  predicate Settled(y: System, s: Symbol) {
    var v := LedgerView(y.risk.portfolio, s);
    && (forall a :: a in Awaiting(y.pending, s) ==> OnSide(v, a.proposal.side))
    && (forall r :: r in InFlight(y.results, s) && IsAnswer(r) ==> OnSide(v, r.side))
  }

  /** An assessment whose approval reserved capital: the ledger already shows its own side. */
  predicate Reserved(y: System, a: RiskAssessment) {
    a.IsApproved() && SideOf(y.risk.portfolio, a.proposal.symbol) == Some(a.proposal.side)
  }

  /**
   Proposal ids are new. A symbol that is flat is approved only when nothing of it is unresolved, and
   the close of one that is held only when no earlier close is; vetoed proposals may come at any time.
   A halted execution agent may drop anything but an assessment that reserved capital. A result may be
   delivered again while fewer than 1,000 new ones have been delivered after it. Overrides come any time.
   */
  ghost predicate Scheduled(cfg: RiskConfig, y: System, t: Step) {
    match t
    case Propose(p, today, now) =>
      p.id !in y.used && (Evaluate(cfg, y.risk, p, today, now).1.IsApproved() ==> Settled(y, p.symbol))
    case SkipHead => y.pending != [] && !Reserved(y, y.pending[0])
    case Redeliver(k) => k < |y.delivered| && |y.delivered| - 1 - k < CAPACITY
    case _ => Enabled(y, t)
  }

  // ------------------------------------------------------------------
  // One symbol at a time
  // ------------------------------------------------------------------

  datatype View = Flat | Held(side: Side, cost: real)

  function LedgerView(p: Portfolio, s: Symbol): View {
    if s !in p.open then Flat else Held(SideOf(p, s).value, p.open[s])
  }

  function BrokerView(b: BrokerState, s: Symbol): View {
    if s !in b.positions then Flat else Held(b.positions[s].side, b.positions[s].cost)
  }

  /** What delivering a result does to the ledger's view of its symbol. */
  function Delivered(v: View, r: ExecutionResult): View {
    if !r.IsFill() then if v.Held? && v.side == r.side then Flat else v
    else if v.Held? && v.side != r.side then Flat
    else Held(r.side, r.Cost())
  }

  /** The ledger's view once all in-flight results of the symbol are delivered. */
  function Replayed(v: View, rs: seq<ExecutionResult>): View
    decreases rs
  {
    if rs == [] then v else Replayed(Delivered(v, rs[0]), rs[1..])
  }

  /** A closing fill meets a position of the other side, an opening fill never does. */
  predicate Proper(v: View, r: ExecutionResult) {
    if r.realizedPnl.Some? then r.IsFill() && v.Held? && v.side != r.side
    else r.IsFill() ==> v.Flat? || v.side == r.side
  }

  predicate AllProper(v: View, rs: seq<ExecutionResult>)
    decreases rs
  {
    rs != [] ==> Proper(v, rs[0]) && AllProper(Delivered(v, rs[0]), rs[1..])
  }

  /** Replaying the in-flight results takes the ledger's view to the broker's. */
  predicate Coherent(v: View, rs: seq<ExecutionResult>, w: View) {
    AllProper(v, rs) && Replayed(v, rs) == w
  }

  predicate OnSide(v: View, side: Side) {
    v.Held? && v.side == side
  }

  /**
   The invariant of one symbol. With assessments awaiting execution, either the first reserved capital
   and nothing else is going on but a close that may follow it, or there is only a close, possibly of a
   position already gone, and no answer in flight is for its side.
   */
  predicate Legal(v: View, awaiting: seq<RiskAssessment>, rs: seq<ExecutionResult>, w: View) {
    if awaiting == [] then Coherent(v, rs, w)
    else
      var side := awaiting[0].proposal.side;
      if OnSide(v, side) then
        rs == [] && w.Flat? && |awaiting| <= 2 && (|awaiting| == 2 ==> awaiting[1].proposal.side != side)
      else
        && |awaiting| == 1 && Coherent(v, rs, w) && !OnSide(w, side)
        && forall r :: r in rs && IsAnswer(r) ==> r.side != side
  }

  predicate LegalAt(y: System, s: Symbol) {
    Legal(LedgerView(y.risk.portfolio, s), Awaiting(y.pending, s), InFlight(y.results, s), BrokerView(y.broker, s))
  }

  lemma {:induction false} CoherentAppend(v: View, rs: seq<ExecutionResult>, w: View, r: ExecutionResult)
    requires Coherent(v, rs, w) && Proper(w, r)
    ensures Coherent(v, rs + [r], Delivered(w, r))
    decreases rs
  {
    if rs == [] {
      assert ([r])[1..] == [];
    } else {
      assert (rs + [r])[1..] == rs[1..] + [r];
      CoherentAppend(Delivered(v, rs[0]), rs[1..], w, r);
    }
  }

  predicate MonitorsClose(rs: seq<ExecutionResult>) {
    forall r :: r in rs && !IsAnswer(r) ==> r.realizedPnl.Some?
  }

  /** With every answer in flight on one side, the replay never ends on the other. */
  lemma {:induction false} NeverOpposite(v: View, rs: seq<ExecutionResult>, side: Side)
    requires AllProper(v, rs) && MonitorsClose(rs) && !OnSide(v, side.Opposite())
    requires forall r :: r in rs && IsAnswer(r) ==> r.side == side
    ensures !OnSide(Replayed(v, rs), side.Opposite())
    decreases rs
  {
    if rs != [] {
      assert rs[0] in rs;
      assert forall r :: r in rs[1..] ==> r in rs;
      NeverOpposite(Delivered(v, rs[0]), rs[1..], side);
    }
  }

  /** A flat ledger with no answer in flight has nothing in flight. */
  lemma FlatIsQuiet(rs: seq<ExecutionResult>)
    requires AllProper(Flat, rs) && MonitorsClose(rs) && forall r :: r in rs ==> !IsAnswer(r)
    ensures rs == []
  {
  }

  // ------------------------------------------------------------------
  // Channel contents
  // ------------------------------------------------------------------

  lemma {:induction false} AwaitingAppend(pending: seq<RiskAssessment>, a: RiskAssessment, s: Symbol)
    ensures Awaiting(pending + [a], s)
            == if a.IsApproved() && a.proposal.symbol == s then Awaiting(pending, s) + [a] else Awaiting(pending, s)
  {
    if pending == [] {
      assert ([a])[1..] == [];
    } else {
      assert (pending + [a])[1..] == pending[1..] + [a];
      AwaitingAppend(pending[1..], a, s);
      AwaitingHead(pending, s);
      AwaitingHead(pending + [a], s);
      var rest := Awaiting(pending[1..], s);
      assert [pending[0]] + (rest + [a]) == [pending[0]] + rest + [a];
    }
  }

  lemma {:induction false} InFlightAppend(results: seq<ExecutionResult>, r: ExecutionResult, s: Symbol)
    ensures InFlight(results + [r], s)
            == if r.symbol == s then InFlight(results, s) + [r] else InFlight(results, s)
  {
    if results == [] {
      assert ([r])[1..] == [];
    } else {
      assert (results + [r])[1..] == results[1..] + [r];
      InFlightAppend(results[1..], r, s);
      var rest := InFlight(results[1..], s);
      assert [results[0]] + (rest + [r]) == [results[0]] + rest + [r];
    }
  }

  lemma AwaitingHead(pending: seq<RiskAssessment>, s: Symbol)
    requires pending != []
    ensures if pending[0].IsApproved() && pending[0].proposal.symbol == s then
              Awaiting(pending, s) == [pending[0]] + Awaiting(pending[1..], s)
            else Awaiting(pending, s) == Awaiting(pending[1..], s)
  {
  }

  lemma InFlightHead(results: seq<ExecutionResult>, s: Symbol)
    requires results != []
    ensures if results[0].symbol == s then
              InFlight(results, s) != [] && InFlight(results, s)[0] == results[0]
              && InFlight(results, s)[1..] == InFlight(results[1..], s)
            else InFlight(results, s) == InFlight(results[1..], s)
  {
  }

  lemma {:induction false} InFlightSubset(results: seq<ExecutionResult>, s: Symbol)
    ensures forall r :: r in InFlight(results, s) ==> r in results && r.symbol == s
  {
    if results != [] {
      InFlightSubset(results[1..], s);
    }
  }

  function PnlSum(rs: seq<ExecutionResult>): real {
    if rs == [] then 0.0 else rs[0].Pnl() + PnlSum(rs[1..])
  }

  lemma {:induction false} PnlSumAppend(rs: seq<ExecutionResult>, r: ExecutionResult)
    ensures PnlSum(rs + [r]) == PnlSum(rs) + r.Pnl()
  {
    if rs == [] {
      assert ([r])[1..] == [];
    } else {
      assert (rs + [r])[1..] == rs[1..] + [r];
      PnlSumAppend(rs[1..], r);
    }
  }

  // ------------------------------------------------------------------
  // The invariant of the whole system
  // ------------------------------------------------------------------

  /** Proposals awaiting execution are distinct and new to the broker. */
  ghost predicate ProposalsInOrder(y: System) {
    && (forall i, j :: 0 <= i < j < |y.pending| ==> y.pending[i].proposal.id != y.pending[j].proposal.id)
    && (forall a :: a in y.pending ==> a.proposal.id in y.used && a.proposal.id !in y.broker.filled)
    && (forall id :: id in y.broker.filled ==> id in y.used)
  }

  /** Results in flight are in order of their ids and new to the ledger. */
  ghost predicate ResultsInOrder(y: System) {
    && (forall i, j :: 0 <= i < j < |y.results| ==> y.results[i].id < y.results[j].id)
    && (forall r :: r in y.results ==> r.id < y.nextResult && r.id !in y.risk.seen)
    && (forall x :: x in y.risk.seen ==> x < y.nextResult)
    && (forall r :: r in y.results ==> forall x :: x in y.risk.seen ==> x < r.id)
    && (forall r :: r in y.results && r.proposal.None? ==> r.realizedPnl.Some?)
  }

  ghost predicate IdsInOrder(y: System) {
    ProposalsInOrder(y) && ResultsInOrder(y)
  }

  function ResultIds(rs: seq<ExecutionResult>): seq<Id> {
    seq(|rs|, k requires 0 <= k < |rs| => rs[k].id)
  }

  /** The ledger remembers the newest results delivered. */
  ghost predicate Remembers(y: System) {
    y.risk.seen == Newest(ResultIds(y.delivered))
  }

  /** How far the ledger's value, once caught up, is from the broker's equity. */
  ghost function Drift(y: System): real {
    Value(y.risk.portfolio) + PnlSum(y.results) - Equity(y.broker)
  }

  ghost predicate Bounded(y: System) {
    -0.005 * y.closes as real <= Drift(y) <= 0.005 * y.closes as real
  }

  ghost predicate Invariant(y: System) {
    && Valid(y.broker) && Balanced(y.risk.portfolio) && IdsInOrder(y) && Remembers(y) && Bounded(y)
    && forall s :: LegalAt(y, s)
  }

  lemma StartInvariant(balance: real, today: Day)
    ensures Invariant(Start(balance, today))
  {
  }

  // ------------------------------------------------------------------
  // Each step keeps one symbol legal
  // ------------------------------------------------------------------

  lemma ProposeLegal(v: View, awaiting: seq<RiskAssessment>, rs: seq<ExecutionResult>, w: View,
      a: RiskAssessment, v': View)
    requires Legal(v, awaiting, rs, w) && MonitorsClose(rs)
    requires forall b :: b in awaiting ==> OnSide(v, b.proposal.side)
    requires forall r :: r in rs && IsAnswer(r) ==> OnSide(v, r.side)
    requires if v.Flat? then OnSide(v', a.proposal.side) else v' == v && v.side != a.proposal.side
    ensures Legal(v', awaiting + [a], rs, w)
  {
    if awaiting != [] {
      assert awaiting[0] in awaiting;
      assert awaiting[|awaiting| - 1] in awaiting;
    } else if v.Flat? {
      FlatIsQuiet(rs);
    } else {
      NeverOpposite(v, rs, v.side);
    }
  }

  /** The three outcomes of executing an assessment, seen from its symbol. */
  predicate Executes(a: RiskAssessment, w: View, r: ExecutionResult, w': View) {
    && r.side == a.proposal.side
    && if !r.IsFill() then w' == w && r.realizedPnl.None?
       else if r.realizedPnl.None? then w.Flat? && w' == Held(r.side, r.Cost())
       else w.Held? && w.side != r.side && w'.Flat?
  }

  lemma ExecuteLegal(v: View, awaiting: seq<RiskAssessment>, rs: seq<ExecutionResult>, w: View,
      r: ExecutionResult, w': View)
    requires awaiting != [] && Legal(v, awaiting, rs, w) && Executes(awaiting[0], w, r, w')
    ensures Legal(v, awaiting[1..], rs + [r], w')
  {
    if OnSide(v, awaiting[0].proposal.side) {
      CoherentAppend(v, [], v, r);
      assert rs + [r] == [] + [r];
    } else {
      CoherentAppend(v, rs, w, r);
    }
  }

  lemma MonitorLegal(v: View, awaiting: seq<RiskAssessment>, rs: seq<ExecutionResult>, w: View, r: ExecutionResult)
    requires Legal(v, awaiting, rs, w)
    requires w.Held? && r.IsFill() && r.side != w.side && r.realizedPnl.Some? && !IsAnswer(r)
    ensures Legal(v, awaiting, rs + [r], Flat)
  {
    CoherentAppend(v, rs, w, r);
  }

  lemma DeliverLegal(v: View, awaiting: seq<RiskAssessment>, rs: seq<ExecutionResult>, w: View)
    requires Legal(v, awaiting, rs, w) && rs != [] && MonitorsClose(rs)
    ensures Proper(v, rs[0])
    ensures Legal(Delivered(v, rs[0]), awaiting, rs[1..], w)
  {
    assert rs[0] in rs;
    assert forall r :: r in rs[1..] ==> r in rs;
  }

  // ------------------------------------------------------------------
  // Each step keeps the system invariant
  // ------------------------------------------------------------------

  lemma EvaluateView(cfg: RiskConfig, s: RiskState, p: TradeProposal, today: Day, now: real, t: Symbol)
    ensures var (s', a) := Evaluate(cfg, s, p, today, now);
            && a.proposal == p && s'.seen == s.seen
            && var v, v' := LedgerView(s.portfolio, t), LedgerView(s'.portfolio, t);
               if !a.IsApproved() || t != p.symbol then v' == v
               else if v.Flat? then OnSide(v', p.side)
               else v' == v && v.side != p.side
  {
    var e := RiskRuns.Propose(p, today, now);
    if Evaluate(cfg, s, p, today, now).1.IsApproved() {
      RiskRuns.ApprovalIsWithinLimits(cfg, s, e);
    }
  }

  lemma ProposeKeeps(cfg: RiskConfig, y: System, p: TradeProposal, today: Day, now: real)
    requires Invariant(y) && Scheduled(cfg, y, Propose(p, today, now))
    ensures Invariant(Next(cfg, y, Propose(p, today, now)))
  {
    var z := Next(cfg, y, Propose(p, today, now));
    var (risk, a) := Evaluate(cfg, y.risk, p, today, now);
    RiskRuns.EvaluateConserves(cfg, y.risk, p, today, now);
    EvaluateView(cfg, y.risk, p, today, now, p.symbol);
    forall s ensures LegalAt(z, s) {
      EvaluateView(cfg, y.risk, p, today, now, s);
      AwaitingAppend(y.pending, a, s);
      assert LegalAt(y, s);
      if a.IsApproved() && s == p.symbol {
        var rs := InFlight(y.results, s);
        InFlightSubset(y.results, s);
        ProposeLegal(LedgerView(y.risk.portfolio, s), Awaiting(y.pending, s), rs, BrokerView(y.broker, s), a,
          LedgerView(risk.portfolio, s));
      }
    }
  }

  lemma SkipKeeps(cfg: RiskConfig, y: System)
    requires Invariant(y) && Scheduled(cfg, y, SkipHead)
    ensures Invariant(Next(cfg, y, SkipHead))
  {
    var z := Next(cfg, y, SkipHead);
    assert forall a :: a in z.pending ==> a in y.pending;
    forall s ensures LegalAt(z, s) {
      assert LegalAt(y, s);
      AwaitingHead(y.pending, s);
    }
  }

  /**
   A halted execution agent that drops an approved assessment: the replicas of its symbol still agree
   afterwards exactly when the approval had reserved nothing.
   */
  lemma SkipHarmlessIff(cfg: RiskConfig, y: System)
    requires Invariant(y) && y.pending != [] && y.pending[0].IsApproved()
    ensures var z, s := Next(cfg, y, SkipHead), y.pending[0].proposal.symbol;
            Replayed(LedgerView(z.risk.portfolio, s), InFlight(z.results, s)) == BrokerView(z.broker, s)
            <==> !Reserved(y, y.pending[0])
  {
    var s := y.pending[0].proposal.symbol;
    assert LegalAt(y, s);
    AwaitingHead(y.pending, s);
  }

  lemma SettleView(p: Portfolio, r: ExecutionResult, t: Symbol)
    ensures LedgerView(Settle(p, r), t)
            == if t == r.symbol then Delivered(LedgerView(p, t), r) else LedgerView(p, t)
  {
  }

  /** A properly delivered result adds exactly its PnL to the ledger. */
  lemma SettleValue(p: Portfolio, r: ExecutionResult)
    requires Balanced(p) && Proper(LedgerView(p, r.symbol), r)
    ensures Balanced(Settle(p, r)) && Value(Settle(p, r)) == Value(p) + r.Pnl()
  {
    RiskRuns.SettleConserves(p, r);
  }

  lemma PushedOnly(seen: seq<Id>, id: Id)
    ensures forall x :: x in Push(seen, id) ==> x == id || x in seen
  {
    forall x | x in Push(seen, id) ensures x == id || x in seen {
      var k :| 0 <= k < |Push(seen, id)| && Push(seen, id)[k] == x;
    }
  }

  /** Taking the first result off the channel and remembering it. */
  lemma TakenInOrder(y: System, z: System)
    requires ResultsInOrder(y) && y.results != [] && z.results == y.results[1..] && z.nextResult == y.nextResult
    requires z.risk.seen == Push(y.risk.seen, y.results[0].id)
    ensures ResultsInOrder(z)
  {
    var r := y.results[0];
    assert r in y.results;
    PushedOnly(y.risk.seen, r.id);
    forall q | q in z.results ensures q in y.results && r.id < q.id {
      var k :| 0 <= k < |z.results| && z.results[k] == q;
      assert y.results[k + 1] == q;
    }
  }

  lemma DeliverIds(cfg: RiskConfig, y: System)
    requires IdsInOrder(y) && y.results != []
    ensures IdsInOrder(Next(cfg, y, DeliverHead))
    ensures Next(cfg, y, DeliverHead).risk.portfolio == Settle(y.risk.portfolio, y.results[0])
  {
    assert y.results[0] in y.results;
    TakenInOrder(y, Next(cfg, y, DeliverHead));
  }

  lemma DeliverRemembers(cfg: RiskConfig, y: System)
    requires ResultsInOrder(y) && Remembers(y) && y.results != []
    ensures Remembers(Next(cfg, y, DeliverHead))
  {
    assert y.results[0] in y.results;
    TakenRemembered(y, Next(cfg, y, DeliverHead));
  }

  lemma RememberedAnother(delivered: seq<ExecutionResult>, r: ExecutionResult)
    requires r.id !in Newest(ResultIds(delivered))
    ensures Push(Newest(ResultIds(delivered)), r.id) == Newest(ResultIds(delivered + [r]))
  {
    PushIsNewest(ResultIds(delivered), r.id);
    assert ResultIds(delivered + [r]) == ResultIds(delivered) + [r.id];
  }

  lemma TakenRemembered(y: System, z: System)
    requires ResultsInOrder(y) && Remembers(y) && y.results != [] && z.delivered == y.delivered + [y.results[0]]
    requires z.risk.seen == Push(y.risk.seen, y.results[0].id)
    ensures Remembers(z)
  {
    assert y.results[0] in y.results;
    RememberedAnother(y.delivered, y.results[0]);
  }

  /** A timely redelivery changes nothing. */
  lemma RedeliverIsInert(cfg: RiskConfig, y: System, k: nat)
    requires Remembers(y) && k < |y.delivered| && |y.delivered| - 1 - k < CAPACITY
    ensures Next(cfg, y, Redeliver(k)) == y
  {
    var ids := ResultIds(y.delivered);
    var first := |ids| - |Newest(ids)|;
    assert Newest(ids)[k - first] == ids[k] == y.delivered[k].id;
  }

  lemma OverrideKeeps(cfg: RiskConfig, y: System)
    requires Invariant(y)
    ensures Invariant(Next(cfg, y, Override))
  {
    forall s ensures LegalAt(Next(cfg, y, Override), s) {
      assert LegalAt(y, s);
    }
  }

  lemma DeliverKeeps(cfg: RiskConfig, y: System)
    requires Invariant(y) && y.results != []
    ensures Invariant(Next(cfg, y, DeliverHead))
  {
    var z, r := Next(cfg, y, DeliverHead), y.results[0];
    assert r in y.results;
    DeliverIds(cfg, y);
    DeliverRemembers(cfg, y);
    forall s ensures LegalAt(z, s) && (s == r.symbol ==> Proper(LedgerView(y.risk.portfolio, s), r)) {
      assert LegalAt(y, s);
      SettleView(y.risk.portfolio, r, s);
      InFlightHead(y.results, s);
      if s == r.symbol {
        InFlightSubset(y.results, s);
        DeliverLegal(LedgerView(y.risk.portfolio, s), Awaiting(y.pending, s), InFlight(y.results, s),
          BrokerView(y.broker, s));
      }
    }
    SettleValue(y.risk.portfolio, r);
  }

  /** A broker event touches the view of its own symbol only. */
  lemma BrokerViews(b: BrokerState, e: Events.Event, f: Events.Effect, t: Symbol)
    requires Events.HasEffect(b, e, f)
    ensures var b' := Events.Step(b, e);
            BrokerView(b', t) == match f
              case Nothing => BrokerView(b, t)
              case Opens(s, pos, _) => if t == s then Held(pos.side, pos.cost) else BrokerView(b, t)
              case Closes(s, _, _) => if t == s then Flat else BrokerView(b, t)
  {
  }

  /** What an event adds to equity, against the rounded PnL it reports. */
  lemma BrokerDrift(b: BrokerState, e: Events.Event)
    requires Valid(b)
    ensures var rs, b' := Events.NewFills(b, e), Events.Step(b, e);
            && |rs| <= 1
            && var n := ClosingFills(rs) as real;
               -0.005 * n <= (Equity(b) + PnlSum(rs)) - Equity(b') <= 0.005 * n
  {
    var rs := Events.NewFills(b, e);
    var f := Events.EffectOf(b, e);
    match f
    case Nothing =>
    case Opens(s, pos, r) =>
      Events.CostsOfOpen(b.positions, s, pos);
      PnlSumAppend([], rs[0]);
      assert [] + [rs[0]] == rs;
    case Closes(s, pos, r) =>
      Events.CostsOfClose(b.positions, s);
      RoundCentsError(CashReturned(pos, r) - pos.cost);
      PnlSumAppend([], rs[0]);
      assert [] + [rs[0]] == rs;
  }

  /** How a published result moves the broker's view of its symbol, for an executed assessment. */
  lemma ExecuteView(b: BrokerState, a: RiskAssessment, rid: Id, draw: FillDraw)
    requires Valid(b) && a.IsApproved() && a.proposal.id !in b.filled
    ensures var (b', rs) := Execute(b, a, rid, draw);
            && |rs| == 1 && rs[0].symbol == a.proposal.symbol && rs[0].id == rid
            && rs[0].proposal == Some(a.proposal.id)
            && Executes(a, BrokerView(b, a.proposal.symbol), rs[0], BrokerView(b', a.proposal.symbol))
            && (forall t :: t != a.proposal.symbol ==> BrokerView(b', t) == BrokerView(b, t))
            && (forall id :: id in b'.filled ==> id in b.filled || id == a.proposal.id)
            && var n := ClosingFills(rs) as real;
               -0.005 * n <= (Equity(b) + PnlSum(rs)) - Equity(b') <= 0.005 * n
  {
    var e := Events.Order(a, rid, draw);
    var (b', rs) := Execute(b, a, rid, draw);
    var f := Events.EffectOf(b, e);
    BrokerViews(b, e, f, a.proposal.symbol);
    forall t | t != a.proposal.symbol ensures BrokerView(b', t) == BrokerView(b, t) {
      BrokerViews(b, e, f, t);
    }
    forall id | id in b'.filled ensures id in b.filled || id == a.proposal.id {
      if id !in b.filled && id != a.proposal.id {
        Events.StepDoesNotRecall(b, e, id);
      }
    }
    BrokerDrift(b, e);
    if f.Nothing? {
      PnlSumAppend([], rs[0]);
      assert [] + [rs[0]] == rs;
    }
  }

  /** Publishing one result with the next id, for an assessment taken off the queue or for none. */
  lemma PublishKeepsIds(y: System, z: System, r: ExecutionResult)
    requires IdsInOrder(y)
    requires z.risk == y.risk && z.used == y.used && z.nextResult == y.nextResult + 1
    requires z.results == y.results + [r] && r.id == y.nextResult && (r.proposal.None? ==> r.realizedPnl.Some?)
    requires (z.pending == y.pending && z.broker.filled == y.broker.filled)
             || (y.pending != [] && z.pending == y.pending[1..]
                 && forall id :: id in z.broker.filled ==> id in y.broker.filled || id == y.pending[0].proposal.id)
    ensures IdsInOrder(z)
  {
    PublishedInOrder(y, z, r);
    if y.pending != [] {
      assert y.pending[0] in y.pending;
    }
    forall a | a in z.pending ensures a in y.pending && a.proposal.id !in z.broker.filled {
      var k :| 0 <= k < |z.pending| && z.pending[k] == a;
      if z.pending != y.pending {
        assert y.pending[k + 1] == a;
      }
    }
  }

  lemma PublishedInOrder(y: System, z: System, r: ExecutionResult)
    requires ResultsInOrder(y) && z.risk.seen == y.risk.seen && z.nextResult == y.nextResult + 1
    requires z.results == y.results + [r] && r.id == y.nextResult && (r.proposal.None? ==> r.realizedPnl.Some?)
    ensures ResultsInOrder(z)
  {
    forall q | q in z.results ensures q in y.results || q == r {
      var k :| 0 <= k < |z.results| && z.results[k] == q;
    }
  }

  /** Publishing a result moves the drift by at most its own rounding. */
  lemma PublishKeepsBound(y: System, z: System, rs: seq<ExecutionResult>)
    requires Bounded(y)
    requires |rs| == 1 && z.results == y.results + rs && z.risk == y.risk && z.closes == y.closes + ClosingFills(rs)
    requires var n := ClosingFills(rs) as real;
             -0.005 * n <= (Equity(y.broker) + PnlSum(rs)) - Equity(z.broker) <= 0.005 * n
    ensures Bounded(z)
  {
    assert rs == [rs[0]] && [] + [rs[0]] == [rs[0]];
    PnlSumAppend(y.results, rs[0]);
    PnlSumAppend([], rs[0]);
  }

  lemma ExecuteKeeps(cfg: RiskConfig, y: System, draw: FillDraw)
    requires Invariant(y) && y.pending != [] && y.pending[0].IsApproved()
    ensures Invariant(Next(cfg, y, ExecuteHead(draw)))
  {
    var z, a := Next(cfg, y, ExecuteHead(draw)), y.pending[0];
    assert a in y.pending;
    ExecuteView(y.broker, a, y.nextResult, draw);
    PlaceOrderKeepsValid(y.broker, a, y.nextResult, draw);
    var rs := Execute(y.broker, a, y.nextResult, draw).1;
    assert rs == [rs[0]];
    PublishKeepsIds(y, z, rs[0]);
    PublishKeepsBound(y, z, rs);
    forall s ensures LegalAt(z, s) {
      assert LegalAt(y, s);
      InFlightAppend(y.results, rs[0], s);
      AwaitingHead(y.pending, s);
      if s == a.proposal.symbol {
        ExecuteLegal(LedgerView(y.risk.portfolio, s), Awaiting(y.pending, s), InFlight(y.results, s),
          BrokerView(y.broker, s), rs[0], BrokerView(z.broker, s));
      }
    }
  }

  /** Executing a rejected assessment does nothing. */
  lemma ExecuteRejectedKeeps(cfg: RiskConfig, y: System, draw: FillDraw)
    requires Invariant(y) && y.pending != [] && !y.pending[0].IsApproved()
    ensures Invariant(Next(cfg, y, ExecuteHead(draw)))
  {
    var z := Next(cfg, y, ExecuteHead(draw));
    assert z.results == y.results;
    assert forall a :: a in z.pending ==> a in y.pending;
    forall s ensures LegalAt(z, s) {
      assert LegalAt(y, s);
      AwaitingHead(y.pending, s);
    }
  }

  lemma MonitorKeeps(cfg: RiskConfig, y: System, symbol: Symbol, price: Option<real>)
    requires Invariant(y) && symbol in y.broker.positions
    ensures Invariant(Next(cfg, y, MonitorClose(symbol, price)))
  {
    var z := Next(cfg, y, MonitorClose(symbol, price));
    var r := ClosePosition(y.broker, symbol, price, y.nextResult).1.value;
    ClosePositionKeepsValid(y.broker, symbol, price, y.nextResult);
    PublishKeepsIds(y, z, r);
    BrokerDrift(y.broker, Events.CloseAt(symbol, price, y.nextResult));
    PublishKeepsBound(y, z, [r]);
    forall s ensures LegalAt(z, s) {
      assert LegalAt(y, s);
      InFlightAppend(y.results, r, s);
      if s == symbol {
        MonitorLegal(LedgerView(y.risk.portfolio, s), Awaiting(y.pending, s), InFlight(y.results, s),
          BrokerView(y.broker, s), r);
      }
    }
  }

  /** A monitor close that finds nothing does nothing. */
  lemma MonitorNoOpKeeps(cfg: RiskConfig, y: System, symbol: Symbol, price: Option<real>)
    requires Invariant(y) && symbol !in y.broker.positions
    ensures Invariant(Next(cfg, y, MonitorClose(symbol, price)))
  {
    var z := Next(cfg, y, MonitorClose(symbol, price));
    assert z.results == y.results;
    forall s ensures LegalAt(z, s) {
      assert LegalAt(y, s);
    }
  }

  lemma StepKeeps(cfg: RiskConfig, y: System, t: Step)
    requires Invariant(y) && Scheduled(cfg, y, t)
    ensures Invariant(Next(cfg, y, t))
  {
    match t
    case Propose(p, today, now) => ProposeKeeps(cfg, y, p, today, now);
    case ExecuteHead(draw) =>
      if y.pending[0].IsApproved() {
        ExecuteKeeps(cfg, y, draw);
      } else {
        ExecuteRejectedKeeps(cfg, y, draw);
      }
    case SkipHead => SkipKeeps(cfg, y);
    case MonitorClose(symbol, price) =>
      if symbol in y.broker.positions {
        MonitorKeeps(cfg, y, symbol, price);
      } else {
        MonitorNoOpKeeps(cfg, y, symbol, price);
      }
    case DeliverHead => DeliverKeeps(cfg, y);
    case Redeliver(k) => RedeliverIsInert(cfg, y, k);
    case Override => OverrideKeeps(cfg, y);
  }

  // ------------------------------------------------------------------
  // Runs
  // ------------------------------------------------------------------

  /** The run is defined and keeps to the scheduling hypotheses at every step. */
  ghost predicate ScheduledRun(cfg: RiskConfig, y: System, ts: seq<Step>)
    decreases ts
  {
    ts == [] || (Scheduled(cfg, y, ts[0]) && ScheduledRun(cfg, Next(cfg, y, ts[0]), ts[1..]))
  }

  ghost function Run(cfg: RiskConfig, y: System, ts: seq<Step>): System
    requires ScheduledRun(cfg, y, ts)
    decreases ts
  {
    if ts == [] then y else Run(cfg, Next(cfg, y, ts[0]), ts[1..])
  }

  lemma {:induction false} RunKeeps(cfg: RiskConfig, y: System, ts: seq<Step>)
    requires Invariant(y) && ScheduledRun(cfg, y, ts)
    ensures Invariant(Run(cfg, y, ts))
    decreases ts
  {
    if ts != [] {
      StepKeeps(cfg, y, ts[0]);
      RunKeeps(cfg, Next(cfg, y, ts[0]), ts[1..]);
    }
  }

  /**
   Replica agreement. In every scheduled run from a fresh start, at every moment: for each symbol with
   no assessment awaiting execution, replaying the in-flight results on the ledger's view gives the
   broker's view, same side and exactly equal cost.
   */
  lemma ReplicaAgreement(cfg: RiskConfig, balance: real, day: Day, ts: seq<Step>, s: Symbol)
    requires ScheduledRun(cfg, Start(balance, day), ts)
    ensures var y := Run(cfg, Start(balance, day), ts);
            Awaiting(y.pending, s) == [] ==>
              Replayed(LedgerView(y.risk.portfolio, s), InFlight(y.results, s)) == BrokerView(y.broker, s)
  {
    StartInvariant(balance, day);
    RunKeeps(cfg, Start(balance, day), ts);
    assert LegalAt(Run(cfg, Start(balance, day), ts), s);
  }

  /**
   Bounded drift. At quiescence the replicas hold the same symbols on the same sides at equal costs,
   and ledger cash is within half a cent per closing fill of broker cash.
   */
  lemma QuiescentAgreement(cfg: RiskConfig, balance: real, day: Day, ts: seq<Step>)
    requires ScheduledRun(cfg, Start(balance, day), ts)
    requires var y := Run(cfg, Start(balance, day), ts); y.pending == [] && y.results == []
    ensures var y := Run(cfg, Start(balance, day), ts);
            && y.risk.portfolio.open == Costs(y.broker.positions)
            && (forall s :: s in y.broker.positions ==> SideOf(y.risk.portfolio, s) == Some(y.broker.positions[s].side))
            && -0.005 * y.closes as real <= y.risk.portfolio.cash - y.broker.cash <= 0.005 * y.closes as real
  {
    var y := Run(cfg, Start(balance, day), ts);
    StartInvariant(balance, day);
    RunKeeps(cfg, Start(balance, day), ts);
    forall s ensures LedgerView(y.risk.portfolio, s) == BrokerView(y.broker, s) {
      assert LegalAt(y, s);
    }
    forall s ensures s in y.risk.portfolio.open <==> s in y.broker.positions {
      assert LedgerView(y.risk.portfolio, s) == BrokerView(y.broker, s);
    }
    forall s | s in y.broker.positions
      ensures SideOf(y.risk.portfolio, s) == Some(y.broker.positions[s].side)
      ensures y.risk.portfolio.open[s] == y.broker.positions[s].cost
    {
      assert LedgerView(y.risk.portfolio, s) == BrokerView(y.broker, s);
    }
    assert y.risk.portfolio.open == Costs(y.broker.positions);
  }
}
