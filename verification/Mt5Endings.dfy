/** How a wait of the MetaTrader bridge ends, read off the events of the run. */
module Mt5Endings {
  import opened Basics
  import opened Mt5Bridge

  /** The event ends the wait of command `id`, if there is one. */
  predicate Ends(e: Event, id: CommandId) {
    match e
    case Result(body) => IdOf(body) == id
    case Timeout(t) => t == id
    case Cancel(t) => t == id
    case _ => false
  }

  /** What its caller then gets: the posted body, an error, or nothing any more. */
  function Outcome(e: Event): Ending
    requires e.Result? || e.Timeout? || e.Cancel?
  {
    match e
    case Result(body) => Answered(body)
    case Timeout(_) => TimedOut
    case Cancel(_) => Abandoned
  }

  predicate Enqueues(e: Event, id: CommandId) {
    e.Enqueue? && e.command.id == id
  }

  /** Event m is the first after the command was enqueued by event k that ends its wait. */
  predicate EndsFirst(es: seq<Event>, id: CommandId, k: nat, m: nat) {
    && k < m < |es| && Enqueues(es[k], id) && Ends(es[m], id)
    && forall j :: k < j < m ==> !Ends(es[j], id)
  }

  /** The wait has ended this way. */
  ghost predicate HasEnded(es: seq<Event>, id: CommandId, end: Ending) {
    exists k: nat, m: nat :: EndsFirst(es, id, k, m) && Outcome(es[m]) == end
  }

  /** Enqueued, and nothing has ended its wait since. */
  ghost predicate IsOpen(es: seq<Event>, id: CommandId) {
    exists k: nat :: k < |es| && Enqueues(es[k], id) && forall j :: k < j < |es| ==> !Ends(es[j], id)
  }

  // ------------------------------------------------------------------
  // One event more
  // ------------------------------------------------------------------

  lemma EndedMore(es: seq<Event>, e: Event, id: CommandId, end: Ending)
    ensures HasEnded(es + [e], id, end) <==>
              HasEnded(es, id, end) || (IsOpen(es, id) && Ends(e, id) && Outcome(e) == end)
  {
    var all, n := es + [e], |es|;
    assert forall j :: 0 <= j < n ==> all[j] == es[j];
    if HasEnded(es, id, end) {
      var k: nat, m: nat :| EndsFirst(es, id, k, m) && Outcome(es[m]) == end;
      assert EndsFirst(all, id, k, m);
    }
    if IsOpen(es, id) && Ends(e, id) {
      var k: nat :| k < n && Enqueues(es[k], id) && forall j :: k < j < n ==> !Ends(es[j], id);
      assert EndsFirst(all, id, k, n);
    }
    if HasEnded(all, id, end) {
      var k: nat, m: nat :| EndsFirst(all, id, k, m) && Outcome(all[m]) == end;
      if m < n {
        assert EndsFirst(es, id, k, m);
      } else {
        assert Enqueues(es[k], id);
      }
    }
  }

  lemma OpenMore(es: seq<Event>, e: Event, id: CommandId)
    ensures IsOpen(es + [e], id) <==> Enqueues(e, id) || (IsOpen(es, id) && !Ends(e, id))
  {
    var all, n := es + [e], |es|;
    assert all[n] == e && forall j :: 0 <= j < n ==> all[j] == es[j];
    if IsOpen(es, id) && !Ends(e, id) {
      var k: nat :| k < n && Enqueues(es[k], id) && forall j :: k < j < n ==> !Ends(es[j], id);
      assert Enqueues(all[k], id);
    }
    if Enqueues(e, id) {
      assert Enqueues(all[n], id);
    }
    if IsOpen(all, id) {
      var k: nat :| k < |all| && Enqueues(all[k], id) && forall j :: k < j < |all| ==> !Ends(all[j], id);
      if k < n {
        assert Enqueues(es[k], id) && !Ends(all[n], id);
      }
    }
  }

  /** What one enabled event does to the wait of one command. */
  lemma StepEnds(b: Bridge, e: Event, id: CommandId, end: Ending)
    requires Invariant(b) && Enabled(b, e)
    ensures IsWaiting(Step(b, e), id) <==> Enqueues(e, id) || (IsWaiting(b, id) && !Ends(e, id))
    ensures (id in Step(b, e).endings && Step(b, e).endings[id] == end) <==>
              (id in b.endings && b.endings[id] == end) || (IsWaiting(b, id) && Ends(e, id) && Outcome(e) == end)
  {
  }

  // ------------------------------------------------------------------
  // Whole runs
  // ------------------------------------------------------------------

  lemma {:induction false} RunMore(b: Bridge, es: seq<Event>, e: Event)
    ensures Run(b, es + [e]) == Step(Run(b, es), e)
    ensures EnabledRun(b, es + [e]) <==> EnabledRun(b, es) && Enabled(Run(b, es), e)
    decreases es
  {
    if es == [] {
      assert es + [e] == [e] && [e][1..] == [];
    } else {
      assert (es + [e])[0] == es[0] && (es + [e])[1..] == es[1..] + [e];
      RunMore(Step(b, es[0]), es[1..], e);
    }
  }

  /**
   In every run a caller has the ending that the first result, timeout or cancellation for its command
   after the enqueue gives it, with the posted body unchanged, and it waits exactly until then.
   */
  lemma {:induction false} EndedByFirst(es: seq<Event>, id: CommandId, end: Ending)
    requires EnabledRun(IDLE, es)
    ensures var b := Run(IDLE, es);
            && (id in b.endings && b.endings[id] == end <==> HasEnded(es, id, end))
            && (IsWaiting(b, id) <==> IsOpen(es, id))
    decreases |es|
  {
    if |es| > 0 {
      var front, e := es[..|es| - 1], es[|es| - 1];
      assert es == front + [e];
      RunMore(IDLE, front, e);
      EndedByFirst(front, id, end);
      RunKeeps(IDLE, front);
      StepEnds(Run(IDLE, front), e, id, end);
      EndedMore(front, e, id, end);
      OpenMore(front, e, id);
    }
  }

  /** A result posted while its caller waits reaches it, body and all, and its future leaves the table. */
  lemma ResultReachesCaller(es: seq<Event>, body: Body)
    requires EnabledRun(IDLE, es) && IsOpen(es, IdOf(body))
    ensures var b := Run(IDLE, es + [Result(body)]);
            IdOf(body) in b.endings && b.endings[IdOf(body)] == Answered(body) && IdOf(body) !in b.futures
  {
    var e := Result(body);
    RunMore(IDLE, es, e);
    EndedMore(es, e, IdOf(body), Answered(body));
    EndedByFirst(es + [e], IdOf(body), Answered(body));
    EndedByFirst(es, IdOf(body), Answered(body));
  }

  /** Polling hands out what is queued, oldest first, one command a poll. */
  lemma {:induction false} PollsDrain(b: Bridge, polls: seq<Event>)
    requires forall e :: e in polls ==> e == Poll
    ensures var n := if |polls| < |b.queue| then |polls| else |b.queue|;
            && Run(b, polls).delivered == b.delivered + b.queue[..n]
            && Run(b, polls).queue == b.queue[n..]
    decreases polls
  {
    if polls != [] {
      assert polls[0] in polls && forall e :: e in polls[1..] ==> e in polls;
      PollsDrain(Step(b, Poll), polls[1..]);
      if b.queue != [] {
        var n := if |polls| < |b.queue| then |polls| else |b.queue|;
        assert b.queue[1..][..n - 1] == b.queue[1..n];
        assert b.delivered + [b.queue[0]] + b.queue[1..n] == b.delivered + b.queue[..n];
        assert b.queue[1..][n - 1..] == b.queue[n..];
      }
    }
  }
}
