/**
 Which overlapping approvals are harmless. Once approved, assessments are worked off: each is executed
 with any outcome an execution may have, and the monitor may close the position in between. The
 replicas of a symbol end equal in every such way exactly when the queue is safe.
 */
module OverlapExact {
  import opened Basics
  import opened Trading
  import opened Ledger
  import opened RiskAgent
  import opened Protocol

  // ------------------------------------------------------------------
  // Working off the queue of one symbol
  // ------------------------------------------------------------------

  /** The head assessment is executed, or the monitor closes the position; either publishes a result. */
  datatype Turn =
    | Executed(r: ExecutionResult, after: View)
    | Stopped(r: ExecutionResult)

  predicate Stops(w: View, r: ExecutionResult) {
    w.Held? && r.IsFill() && r.side != w.side && r.realizedPnl.Some?
  }

  /** The turns take the broker from w through all of the queue. */
  predicate WorksOff(awaiting: seq<RiskAssessment>, w: View, turns: seq<Turn>)
    decreases turns
  {
    if turns == [] then awaiting == []
    else
      match turns[0]
      case Executed(r, after) =>
        awaiting != [] && Executes(awaiting[0], w, r, after) && WorksOff(awaiting[1..], after, turns[1..])
      case Stopped(r) => Stops(w, r) && WorksOff(awaiting, Flat, turns[1..])
  }

  /** The ledger once every result is delivered, and the broker. */
  function Ends(u: View, w: View, turns: seq<Turn>): (View, View)
    decreases turns
  {
    if turns == [] then (u, w)
    else
      match turns[0]
      case Executed(r, after) => Ends(Delivered(u, r), after, turns[1..])
      case Stopped(r) => Ends(Delivered(u, r), Flat, turns[1..])
  }

  /** u is the ledger once the results in flight are delivered, w the broker. */
  ghost predicate AlwaysAgrees(u: View, awaiting: seq<RiskAssessment>, w: View) {
    forall turns :: WorksOff(awaiting, w, turns) ==> Ends(u, w, turns).0 == Ends(u, w, turns).1
  }

  predicate Wants(awaiting: seq<RiskAssessment>, side: Side) {
    exists k :: 0 <= k < |awaiting| && awaiting[k].proposal.side == side
  }

  predicate SameSideTwice(awaiting: seq<RiskAssessment>) {
    exists i, j :: 0 <= i < j < |awaiting| && awaiting[i].proposal.side == awaiting[j].proposal.side
  }

  /**
   Equal replicas with at most one assessment per side, none for the side held; or a reservation whose
   own assessment is next, with at most one more behind it, for the other side.
   */
  predicate Safe(u: View, awaiting: seq<RiskAssessment>, w: View) {
    if u == w then !SameSideTwice(awaiting) && (w.Held? ==> !Wants(awaiting, w.side))
    else
      && u.Held? && w.Flat? && awaiting != [] && awaiting[0].proposal.side == u.side
      && !SameSideTwice(awaiting)
  }

  // ------------------------------------------------------------------
  // Safe queues always agree
  // ------------------------------------------------------------------

  lemma TailIsSafer(awaiting: seq<RiskAssessment>)
    requires awaiting != [] && !SameSideTwice(awaiting)
    ensures !SameSideTwice(awaiting[1..]) && !Wants(awaiting[1..], awaiting[0].proposal.side)
    ensures forall side :: !Wants(awaiting, side) ==> !Wants(awaiting[1..], side)
  {
    var rest := awaiting[1..];
    assert forall k :: 0 <= k < |rest| ==> rest[k] == awaiting[k + 1];
  }

  lemma {:induction false} SafeAgrees(u: View, awaiting: seq<RiskAssessment>, w: View, turns: seq<Turn>)
    requires Safe(u, awaiting, w) && WorksOff(awaiting, w, turns)
    ensures Ends(u, w, turns).0 == Ends(u, w, turns).1
    decreases turns
  {
    if turns != [] {
      match turns[0]
      case Executed(r, after) =>
        TailIsSafer(awaiting);
        assert w.Held? ==> awaiting[0].proposal.side != w.side;
        SafeAgrees(Delivered(u, r), awaiting[1..], after, turns[1..]);
      case Stopped(r) => SafeAgrees(Delivered(u, r), awaiting, Flat, turns[1..]);
    }
  }

  // ------------------------------------------------------------------
  // Unsafe ones need not
  // ------------------------------------------------------------------

  function Rejection(side: Side): ExecutionResult {
    ExecutionResult(0, Some(0), "", side, Rejected, 0.0, 0.0, None, None, None, None)
  }

  function Opening(side: Side): ExecutionResult {
    ExecutionResult(0, Some(0), "", side, Filled, 1.0, 1.0, Some(1.0), Some(1.0), Some(0.0), None)
  }

  function Stopping(side: Side): ExecutionResult {
    ExecutionResult(0, None, "", side, Filled, 1.0, 1.0, Some(1.0), Some(1.0), Some(0.0), Some(0.0))
  }

  /** Every assessment is rejected: the ledger releases what it shows if any is for its side. */
  lemma {:induction false} AllRejected(u: View, awaiting: seq<RiskAssessment>, w: View) returns (turns: seq<Turn>)
    ensures WorksOff(awaiting, w, turns)
    ensures Ends(u, w, turns) == (if u.Held? && Wants(awaiting, u.side) then Flat else u, w)
    decreases awaiting
  {
    turns := [];
    if awaiting != [] {
      var side := awaiting[0].proposal.side;
      var u1 := Delivered(u, Rejection(side));
      var rest := AllRejected(u1, awaiting[1..], w);
      assert forall k :: 1 <= k < |awaiting| ==> awaiting[k] == awaiting[1..][k - 1];
      turns := [Executed(Rejection(side), w)] + rest;
      assert turns[1..] == rest;
    }
  }

  lemma ThenOpen(u: View, awaiting: seq<RiskAssessment>, rest: seq<Turn>) returns (turns: seq<Turn>)
    requires awaiting != []
    requires WorksOff(awaiting[1..], Held(awaiting[0].proposal.side, 1.0), rest)
    ensures WorksOff(awaiting, Flat, turns)
    ensures var r := Opening(awaiting[0].proposal.side);
            Ends(u, Flat, turns) == Ends(Delivered(u, r), Held(r.side, 1.0), rest)
  {
    var r := Opening(awaiting[0].proposal.side);
    turns := [Executed(r, Held(r.side, 1.0))] + rest;
    assert turns[1..] == rest;
  }

  /** From two flat replicas, two assessments for one side: the first opens, the second is rejected. */
  lemma {:induction false} TwiceDiverges(awaiting: seq<RiskAssessment>) returns (turns: seq<Turn>)
    requires SameSideTwice(awaiting)
    ensures WorksOff(awaiting, Flat, turns) && Ends(Flat, Flat, turns).0 != Ends(Flat, Flat, turns).1
    decreases awaiting
  {
    var side := awaiting[0].proposal.side;
    assert forall k :: 0 <= k < |awaiting| - 1 ==> awaiting[1..][k] == awaiting[k + 1];
    if Wants(awaiting[1..], side) {
      var rest := AllRejected(Held(side, 1.0), awaiting[1..], Held(side, 1.0));
      turns := ThenOpen(Flat, awaiting, rest);
    } else {
      var i, j :| 0 <= i < j < |awaiting| && awaiting[i].proposal.side == awaiting[j].proposal.side;
      assert awaiting[1..][j - 1] == awaiting[j];
      assert i > 0;
      assert awaiting[1..][i - 1].proposal.side == awaiting[1..][j - 1].proposal.side;
      var rest := TwiceDiverges(awaiting[1..]);
      turns := [Executed(Rejection(side), Flat)] + rest;
      assert turns[1..] == rest;
    }
  }

  lemma EqualDiverges(u: View, awaiting: seq<RiskAssessment>) returns (turns: seq<Turn>)
    requires !Safe(u, awaiting, u)
    ensures WorksOff(awaiting, u, turns) && Ends(u, u, turns).0 != Ends(u, u, turns).1
  {
    if u.Held? && Wants(awaiting, u.side) {
      turns := AllRejected(u, awaiting, u);
    } else {
      var rest := TwiceDiverges(awaiting);
      turns := rest;
      if u.Held? {
        var r := Stopping(u.side.Opposite());
        turns := [Stopped(r)] + rest;
        assert turns[1..] == rest;
      }
    }
  }

  /** The ledger shows a reservation the broker has not opened. */
  lemma ReservedDiverges(u: View, awaiting: seq<RiskAssessment>) returns (turns: seq<Turn>)
    requires u.Held? && !Safe(u, awaiting, Flat)
    ensures WorksOff(awaiting, Flat, turns) && Ends(u, Flat, turns).0 != Ends(u, Flat, turns).1
  {
    if !Wants(awaiting, u.side) {
      turns := AllRejected(u, awaiting, Flat);
    } else {
      var side := awaiting[0].proposal.side;
      assert forall k :: 0 <= k < |awaiting| - 1 ==> awaiting[1..][k] == awaiting[k + 1];
      if side != u.side {
        var rest := AllRejected(Flat, awaiting[1..], Held(side, 1.0));
        turns := ThenOpen(u, awaiting, rest);
      } else {
        TailIsUnsafe(awaiting);
        var rest := EqualDiverges(Held(side, 1.0), awaiting[1..]);
        turns := ThenOpen(u, awaiting, rest);
      }
    }
  }

  lemma TailIsUnsafe(awaiting: seq<RiskAssessment>)
    requires SameSideTwice(awaiting)
    ensures Wants(awaiting[1..], awaiting[0].proposal.side) || SameSideTwice(awaiting[1..])
  {
    var i, j :| 0 <= i < j < |awaiting| && awaiting[i].proposal.side == awaiting[j].proposal.side;
    assert awaiting[1..][j - 1] == awaiting[j];
    if i > 0 {
      assert awaiting[1..][i - 1] == awaiting[i];
    }
  }

  lemma UnsafeDiverges(u: View, awaiting: seq<RiskAssessment>, w: View) returns (turns: seq<Turn>)
    requires !Safe(u, awaiting, w)
    ensures WorksOff(awaiting, w, turns) && Ends(u, w, turns).0 != Ends(u, w, turns).1
  {
    if u == w {
      turns := EqualDiverges(u, awaiting);
    } else if u.Held? && w.Flat? {
      turns := ReservedDiverges(u, awaiting);
    } else {
      turns := AllRejected(u, awaiting, w);
    }
  }

  /** However the queue is worked off the replicas end equal, if and only if it is safe. */
  lemma AgreesIffSafe(u: View, awaiting: seq<RiskAssessment>, w: View)
    ensures AlwaysAgrees(u, awaiting, w) <==> Safe(u, awaiting, w)
  {
    if Safe(u, awaiting, w) {
      forall turns | WorksOff(awaiting, w, turns) ensures Ends(u, w, turns).0 == Ends(u, w, turns).1 {
        SafeAgrees(u, awaiting, w, turns);
      }
    } else {
      var turns := UnsafeDiverges(u, awaiting, w);
    }
  }

  // ------------------------------------------------------------------
  // The approving step
  // ------------------------------------------------------------------

  /** Agreement on `s` survives everything that is under way. */
  ghost predicate Survives(y: System, s: Symbol) {
    AlwaysAgrees(Replayed(LedgerView(y.risk.portfolio, s), InFlight(y.results, s)), Awaiting(y.pending, s),
      BrokerView(y.broker, s))
  }

  /** In every reachable state it does. */
  lemma ReachableSurvives(y: System, s: Symbol)
    requires Invariant(y)
    ensures Survives(y, s)
  {
    assert LegalAt(y, s);
    AgreesIffSafe(Replayed(LedgerView(y.risk.portfolio, s), InFlight(y.results, s)), Awaiting(y.pending, s),
      BrokerView(y.broker, s));
  }

  /**
   Approving a proposal is harmless exactly when the queue it joins is safe for the ledger it leaves,
   once all results in flight are delivered.
   */
  lemma ApprovalHarmlessIff(cfg: RiskConfig, y: System, p: TradeProposal, today: Day, now: real)
    requires Evaluate(cfg, y.risk, p, today, now).1.IsApproved()
    ensures var (risk, a) := Evaluate(cfg, y.risk, p, today, now);
            Survives(Next(cfg, y, Propose(p, today, now)), p.symbol) <==>
              Safe(Replayed(LedgerView(risk.portfolio, p.symbol), InFlight(y.results, p.symbol)),
                Awaiting(y.pending, p.symbol) + [a], BrokerView(y.broker, p.symbol))
  {
    var s := p.symbol;
    var (risk, a) := Evaluate(cfg, y.risk, p, today, now);
    EvaluateView(cfg, y.risk, p, today, now, s);
    AwaitingAppend(y.pending, a, s);
    AgreesIffSafe(Replayed(LedgerView(risk.portfolio, s), InFlight(y.results, s)), Awaiting(y.pending, s) + [a],
      BrokerView(y.broker, s));
  }

  lemma QueueEnds(awaiting: seq<RiskAssessment>, a: RiskAssessment)
    ensures (awaiting + [a])[|awaiting|] == a && forall k :: 0 <= k < |awaiting| ==> (awaiting + [a])[k] == awaiting[k]
  {
  }

  /** Joining a legal queue for the side the ledger does not show. */
  lemma CloseIsSafeIff(v: View, awaiting: seq<RiskAssessment>, rs: seq<ExecutionResult>, w: View, a: RiskAssessment)
    requires Legal(v, awaiting, rs, w) && v.Held? && v.side != a.proposal.side
    ensures Safe(Replayed(v, rs), awaiting + [a], w) <==>
              !OnSide(w, a.proposal.side) && !Wants(awaiting, a.proposal.side)
  {
    QueueEnds(awaiting, a);
  }

  /** Joining a legal queue for a reservation on a flat ledger with nothing in flight. */
  lemma ReservationIsSafeIff(awaiting: seq<RiskAssessment>, w: View, a: RiskAssessment, u: View)
    requires Legal(Flat, awaiting, [], w) && OnSide(u, a.proposal.side)
    ensures Safe(u, awaiting + [a], w) <==> awaiting == []
  {
    QueueEnds(awaiting, a);
  }

  /**
   Approving the close of a held symbol is harmless exactly when the broker is not yet on the closing
   side and no earlier close of the symbol awaits execution.
   */
  lemma CloseHarmlessIff(cfg: RiskConfig, y: System, p: TradeProposal, today: Day, now: real)
    requires Invariant(y) && LedgerView(y.risk.portfolio, p.symbol).Held?
    requires Evaluate(cfg, y.risk, p, today, now).1.IsApproved()
    ensures Survives(Next(cfg, y, Propose(p, today, now)), p.symbol) <==>
              !OnSide(BrokerView(y.broker, p.symbol), p.side) && !Wants(Awaiting(y.pending, p.symbol), p.side)
  {
    var s, a := p.symbol, Evaluate(cfg, y.risk, p, today, now).1;
    EvaluateView(cfg, y.risk, p, today, now, s);
    ApprovalHarmlessIff(cfg, y, p, today, now);
    assert LegalAt(y, s);
    CloseIsSafeIff(LedgerView(y.risk.portfolio, s), Awaiting(y.pending, s), InFlight(y.results, s),
      BrokerView(y.broker, s), a);
  }

  /**
   Approving a flat symbol with nothing in flight is harmless exactly when no assessment of it awaits
   execution.
   */
  lemma ReservationHarmlessIff(cfg: RiskConfig, y: System, p: TradeProposal, today: Day, now: real)
    requires Invariant(y) && LedgerView(y.risk.portfolio, p.symbol).Flat? && InFlight(y.results, p.symbol) == []
    requires Evaluate(cfg, y.risk, p, today, now).1.IsApproved()
    ensures Survives(Next(cfg, y, Propose(p, today, now)), p.symbol) <==> Awaiting(y.pending, p.symbol) == []
  {
    var s := p.symbol;
    var (risk, a) := Evaluate(cfg, y.risk, p, today, now);
    EvaluateView(cfg, y.risk, p, today, now, s);
    ApprovalHarmlessIff(cfg, y, p, today, now);
    assert LegalAt(y, s);
    ReservationIsSafeIff(Awaiting(y.pending, s), BrokerView(y.broker, s), a, LedgerView(risk.portfolio, s));
  }

  /** Results in flight matter: a rejection of its own side leaves a reservation safe, a stale short's fill does not. */
  lemma InFlightDecides(a: RiskAssessment, rejected: ExecutionResult, fill: ExecutionResult, cost: real)
    requires a.proposal.side == Buy
    requires !rejected.IsFill() && rejected.side == Buy
    requires fill.IsFill() && fill.side == Sell
    ensures Safe(Replayed(Held(Buy, cost), [rejected]), [a], Flat)
    ensures !Safe(Replayed(Held(Buy, cost), [fill]), [a], Held(Sell, fill.Cost()))
  {
    assert Replayed(Flat, []) == Flat && [rejected][1..] == [] && [fill][1..] == [];
    assert [a][0] == a;
  }
}
