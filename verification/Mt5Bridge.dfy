/**
 The MetaTrader bridge as a concurrent protocol: callers enqueue a command and wait on a future, the
 EA polls commands and posts results, waits time out or are cancelled, in any interleaving.
 */
module Mt5Bridge {
  import opened Basics

  /** A command id: a uuid4 written as a string. */
  type CommandId = string

  datatype Command = Command(id: CommandId, action: string)

  /** The body of a posted result; the id is absent when the EA left it out. */
  datatype Body = Body(commandId: Option<CommandId>, payload: string)

  /** A future in the table: somebody waits on it, or its waiter was cancelled from outside. */
  datatype Future = Waiting | Cancelled

  datatype Ending = Answered(body: Body) | TimedOut | Abandoned

  /**
   `queue` and `futures` are the bridge's own fields. The rest is history: commands in the order
   enqueued, commands handed to the EA, and how each wait ended.
   */
  datatype Bridge = Bridge(
    queue: seq<Command>,
    futures: map<CommandId, Future>,
    issued: seq<Command>,
    delivered: seq<Command>,
    endings: map<CommandId, Ending>)

  const IDLE := Bridge([], map[], [], [], map[])

  datatype Event =
    | Enqueue(command: Command)
    | Poll
    | Result(body: Body)
    | Timeout(id: CommandId)
    | Cancel(id: CommandId)

  // ------------------------------------------------------------------
  // Specification
  // ------------------------------------------------------------------

  /** Python's `body.get("command_id", "")`. */
  function IdOf(body: Body): CommandId {
    if body.commandId.Some? then body.commandId.value else ""
  }

  predicate IsWaiting(b: Bridge, id: CommandId) {
    id in b.futures && b.futures[id] == Waiting
  }

  /** A new id is drawn for every command; only a caller that waits can time out or be cancelled. */
  predicate Enabled(b: Bridge, e: Event) {
    match e
    case Enqueue(c) => c.id !in Ids(b.issued) && c.id != ""
    case Timeout(id) => IsWaiting(b, id)
    case Cancel(id) => IsWaiting(b, id)
    case _ => true
  }

  function Step(b: Bridge, e: Event): Bridge {
    match e
    case Enqueue(c) =>
      b.(queue := b.queue + [c], futures := b.futures[c.id := Waiting], issued := b.issued + [c])
    case Poll =>
      if b.queue == [] then b else b.(queue := b.queue[1..], delivered := b.delivered + [b.queue[0]])
    case Result(body) =>
      var id := IdOf(body);
      b.(futures := b.futures - {id},
         endings := if IsWaiting(b, id) then b.endings[id := Answered(body)] else b.endings)
    case Timeout(id) => b.(futures := b.futures - {id}, endings := b.endings[id := TimedOut])
    case Cancel(id) => b.(futures := b.futures[id := Cancelled], endings := b.endings[id := Abandoned])
  }

  predicate EnabledRun(b: Bridge, es: seq<Event>)
    decreases es
  {
    es == [] || (Enabled(b, es[0]) && EnabledRun(Step(b, es[0]), es[1..]))
  }

  function Run(b: Bridge, es: seq<Event>): Bridge
    decreases es
  {
    if es == [] then b else Run(Step(b, es[0]), es[1..])
  }

  function Ids(cs: seq<Command>): seq<CommandId> {
    seq(|cs|, i requires 0 <= i < |cs| => cs[i].id)
  }

  predicate Distinct(ids: seq<CommandId>) {
    forall i, j :: 0 <= i < j < |ids| ==> ids[i] != ids[j]
  }

  /** Enqueued, and its wait has not ended. */
  predicate Unresolved(b: Bridge, id: CommandId) {
    id in Ids(b.issued) && id !in b.endings
  }

  ghost predicate Invariant(b: Bridge) {
    && b.delivered + b.queue == b.issued && Distinct(Ids(b.issued))
    && (forall id :: IsWaiting(b, id) <==> id in Ids(b.issued) && id !in b.endings)
    && (forall id :: id in b.endings ==> id in Ids(b.issued))
    && (forall id :: id in b.futures && b.futures[id] == Cancelled ==> id in b.endings && b.endings[id] == Abandoned)
    && (forall id :: id in b.endings && b.endings[id].Answered? ==> b.endings[id].body.commandId == Some(id))
    && "" !in Ids(b.issued)
  }

  ghost predicate EndingsStay(b: Bridge, b': Bridge) {
    forall id :: id in b.endings ==> id in b'.endings && b'.endings[id] == b.endings[id]
  }

  lemma EnqueueKeeps(b: Bridge, c: Command)
    requires Invariant(b) && Enabled(b, Enqueue(c))
    ensures Invariant(Step(b, Enqueue(c)))
  {
    var b' := Step(b, Enqueue(c));
    assert Ids(b'.issued) == Ids(b.issued) + [c.id];
    assert b'.delivered + b'.queue == b'.issued;
  }

  lemma PollKeeps(b: Bridge)
    requires Invariant(b)
    ensures Invariant(Step(b, Poll))
  {
    var b' := Step(b, Poll);
    assert b'.delivered + b'.queue == b.delivered + b.queue;
  }

  lemma EndKeeps(b: Bridge, e: Event)
    requires Invariant(b) && Enabled(b, e) && !e.Enqueue? && !e.Poll?
    ensures Invariant(Step(b, e)) && EndingsStay(b, Step(b, e))
  {
  }

  lemma StepKeeps(b: Bridge, e: Event)
    requires Invariant(b) && Enabled(b, e)
    ensures Invariant(Step(b, e)) && EndingsStay(b, Step(b, e))
  {
    match e
    case Enqueue(c) => EnqueueKeeps(b, c);
    case Poll => PollKeeps(b);
    case _ => EndKeeps(b, e);
  }

  lemma {:induction false} RunKeeps(b: Bridge, es: seq<Event>)
    requires Invariant(b) && EnabledRun(b, es)
    ensures Invariant(Run(b, es)) && EndingsStay(b, Run(b, es))
    decreases es
  {
    if es != [] {
      StepKeeps(b, es[0]);
      RunKeeps(Step(b, es[0]), es[1..]);
    }
  }

  // ------------------------------------------------------------------
  // Results
  // ------------------------------------------------------------------

  /**
   In every interleaving: what the EA has been handed followed by what is queued is exactly what was
   enqueued, in order and each once; a caller only ever receives a body carrying its own id; and a
   wait is in the table as long as, and no longer than, it is unresolved.
   */
  lemma RoundTrip(es: seq<Event>)
    requires EnabledRun(IDLE, es)
    ensures var b := Run(IDLE, es);
            && b.delivered + b.queue == b.issued && Distinct(Ids(b.issued))
            && (forall id :: id in b.endings && b.endings[id].Answered? ==> b.endings[id].body.commandId == Some(id))
            && (forall id :: IsWaiting(b, id) <==> Unresolved(b, id))
  {
    RunKeeps(IDLE, es);
  }

  lemma RunSplit(b: Bridge, es: seq<Event>, more: seq<Event>)
    requires EnabledRun(b, es + more)
    ensures EnabledRun(b, es) && EnabledRun(Run(b, es), more)
    ensures Run(b, es + more) == Run(Run(b, es), more)
    decreases es
  {
    if es == [] {
      assert es + more == more;
    } else {
      assert (es + more)[1..] == es[1..] + more;
      RunSplit(Step(b, es[0]), es[1..], more);
    }
  }

  /** A wait ends at most once: however the run goes on, its ending stays what it was. */
  lemma EndsOnce(es: seq<Event>, more: seq<Event>, id: CommandId)
    requires EnabledRun(IDLE, es + more)
    requires id in Run(IDLE, es).endings
    ensures id in Run(IDLE, es + more).endings
    ensures Run(IDLE, es + more).endings[id] == Run(IDLE, es).endings[id]
  {
    RunSplit(IDLE, es, more);
    RunKeeps(IDLE, es);
    RunKeeps(Run(IDLE, es), more);
  }

  /**
   A result for an unknown, answered or timed-out command changes nothing. One for an abandoned wait
   only removes the dead future.
   */
  lemma LateResultIsInert(es: seq<Event>, body: Body)
    requires EnabledRun(IDLE, es)
    ensures var b := Run(IDLE, es);
            var id := IdOf(body);
            (id !in Ids(b.issued) || (id in b.endings && b.endings[id] != Abandoned) ==> Step(b, Result(body)) == b)
            && (id in b.endings ==> Step(b, Result(body)) == b.(futures := b.futures - {id}))
  {
    RunKeeps(IDLE, es);
    var b := Run(IDLE, es);
    var id := IdOf(body);
    if id !in Ids(b.issued) || (id in b.endings && b.endings[id] != Abandoned) {
      assert !IsWaiting(b, id);
      assert id !in b.futures;
      assert b.futures - {id} == b.futures;
    }
  }

  /** A result posted for this command. */
  predicate Answers(e: Event, id: CommandId) {
    e.Result? && IdOf(e.body) == id
  }

  /** Some wait of the run was cancelled and no result for its command came later. */
  predicate Dangles(es: seq<Event>, id: CommandId) {
    exists k :: 0 <= k < |es| && es[k] == Cancel(id) && forall m :: k < m < |es| ==> !Answers(es[m], id)
  }

  /** The same, event by event, starting from a future that is or is not cancelled. */
  predicate DanglesFrom(dead: bool, es: seq<Event>, id: CommandId)
    decreases es
  {
    if es == [] then dead
    else DanglesFrom(es[0] == Cancel(id) || (dead && !Answers(es[0], id)), es[1..], id)
  }

  predicate IsDead(b: Bridge, id: CommandId) {
    id in b.futures && b.futures[id] == Cancelled
  }

  lemma {:induction false} DeadIffDangles(b: Bridge, es: seq<Event>, id: CommandId)
    requires Invariant(b) && EnabledRun(b, es)
    ensures IsDead(Run(b, es), id) <==> DanglesFrom(IsDead(b, id), es, id)
    decreases es
  {
    if es != [] {
      StepKeeps(b, es[0]);
      assert IsDead(Step(b, es[0]), id) <==> es[0] == Cancel(id) || (IsDead(b, id) && !Answers(es[0], id));
      DeadIffDangles(Step(b, es[0]), es[1..], id);
    }
  }

  lemma DanglesHead(es: seq<Event>, id: CommandId)
    requires es != []
    ensures Dangles(es, id) <==>
              Dangles(es[1..], id) || (es[0] == Cancel(id) && forall m :: 1 <= m < |es| ==> !Answers(es[m], id))
  {
    if Dangles(es[1..], id) {
      var rest := es[1..];
      var k :| 0 <= k < |rest| && rest[k] == Cancel(id) && forall m :: k < m < |rest| ==> !Answers(rest[m], id);
      assert es[k + 1] == Cancel(id);
      forall m | k + 1 < m < |es| ensures !Answers(es[m], id) {
        assert es[m] == es[1..][m - 1];
      }
    }
    if Dangles(es, id) {
      var k :| 0 <= k < |es| && es[k] == Cancel(id) && forall m :: k < m < |es| ==> !Answers(es[m], id);
      if k > 0 {
        assert es[1..][k - 1] == Cancel(id);
        forall m | k - 1 < m < |es[1..]| ensures !Answers(es[1..][m], id) {
          assert es[1..][m] == es[m + 1];
        }
      }
    }
  }

  lemma {:induction false} DanglesFromIff(dead: bool, es: seq<Event>, id: CommandId)
    ensures DanglesFrom(dead, es, id) <==>
              Dangles(es, id) || (dead && forall m :: 0 <= m < |es| ==> !Answers(es[m], id))
    decreases es
  {
    if es != [] {
      DanglesFromIff(es[0] == Cancel(id) || (dead && !Answers(es[0], id)), es[1..], id);
      DanglesHead(es, id);
      assert forall m :: 1 <= m < |es| ==> es[m] == es[1..][m - 1];
      assert (forall m :: 0 <= m < |es[1..]| ==> !Answers(es[1..][m], id))
          <==> (forall m :: 1 <= m < |es| ==> !Answers(es[m], id)) by {
        if forall m :: 1 <= m < |es| ==> !Answers(es[m], id) {
          assert forall m :: 0 <= m < |es[1..]| ==> es[1..][m] == es[m + 1];
        }
      }
    }
  }

  /** The table holds a future for exactly the waits that have not ended. */
  ghost predicate TableIsUnresolved(b: Bridge) {
    forall id :: id in b.futures <==> Unresolved(b, id)
  }

  /**
   The table is exactly the set of unresolved waits if and only if every cancellation from outside was
   followed by a result for its command: a cancelled wait leaves its future behind until the EA answers.
   */
  lemma TableIsUnresolvedIff(es: seq<Event>)
    requires EnabledRun(IDLE, es)
    ensures TableIsUnresolved(Run(IDLE, es)) <==>
              forall k :: 0 <= k < |es| && es[k].Cancel? ==> exists m :: k < m < |es| && Answers(es[m], es[k].id)
  {
    RunKeeps(IDLE, es);
    var b := Run(IDLE, es);
    forall id ensures IsDead(b, id) <==> Dangles(es, id) {
      DeadIffDangles(IDLE, es, id);
      DanglesFromIff(false, es, id);
    }
    forall id ensures (id in b.futures <==> Unresolved(b, id)) <==> !IsDead(b, id) {
      assert IsWaiting(b, id) <==> Unresolved(b, id);
    }
    if TableIsUnresolved(b) {
      forall k | 0 <= k < |es| && es[k].Cancel? ensures exists m :: k < m < |es| && Answers(es[m], es[k].id) {
        assert !Dangles(es, es[k].id);
      }
    }
  }

  /** Without outside cancellations it is, over every interleaving of enqueue, poll, result and timeout. */
  lemma TableIsUnresolvedWithoutCancels(es: seq<Event>)
    requires EnabledRun(IDLE, es) && forall k :: 0 <= k < |es| ==> !es[k].Cancel?
    ensures TableIsUnresolved(Run(IDLE, es))
  {
    TableIsUnresolvedIff(es);
  }

  const BUY := Command("1", "BUY")

  /** The smallest leak: a caller enqueues and is cancelled; its future stays, though nobody waits. */
  lemma CancelLeaks()
    ensures var es := [Enqueue(BUY), Cancel(BUY.id)];
            && EnabledRun(IDLE, es)
            && BUY.id in Run(IDLE, es).futures && !Unresolved(Run(IDLE, es), BUY.id)
            && !TableIsUnresolved(Run(IDLE, es))
  {
    var es := [Enqueue(BUY), Cancel(BUY.id)];
    var b1 := Step(IDLE, es[0]);
    assert es[1..] == [es[1]] && [es[1]][1..] == [];
    assert Run(b1, [es[1]]) == Step(b1, es[1]);
    assert Run(IDLE, es) == Step(b1, es[1]);
    assert BUY.id in Run(IDLE, es).endings;
  }

  /** The enqueues and polls of a run. */
  function CommandSide(es: seq<Event>): seq<Event> {
    if es == [] then []
    else if es[0].Enqueue? || es[0].Poll? then [es[0]] + CommandSide(es[1..])
    else CommandSide(es[1..])
  }

  /**
   What the EA is told depends on enqueues and polls alone. In particular a command whose caller was
   told it timed out stays queued and is still handed to the EA.
   */
  lemma {:induction false} TimeoutsRecallNothing(b: Bridge, c: Bridge, es: seq<Event>)
    requires b.queue == c.queue && b.delivered == c.delivered
    ensures Run(b, es).delivered == Run(c, CommandSide(es)).delivered
    ensures Run(b, es).queue == Run(c, CommandSide(es)).queue
    decreases es
  {
    if es != [] {
      if es[0].Enqueue? || es[0].Poll? {
        var rest := CommandSide(es[1..]);
        assert ([es[0]] + rest)[1..] == rest;
        TimeoutsRecallNothing(Step(b, es[0]), Step(c, es[0]), es[1..]);
      } else {
        TimeoutsRecallNothing(Step(b, es[0]), c, es[1..]);
      }
    }
  }

  /** The caller is told that its command timed out; the next poll hands it to the EA all the same. */
  lemma TimedOutIsDelivered()
    ensures var es := [Enqueue(BUY), Timeout(BUY.id), Poll];
            && EnabledRun(IDLE, es)
            && Run(IDLE, es).endings == map[BUY.id := TimedOut] && Run(IDLE, es).delivered == [BUY]
  {
    var es := [Enqueue(BUY), Timeout(BUY.id), Poll];
    var b1 := Step(IDLE, es[0]);
    var b2 := Step(b1, es[1]);
    assert es[1..] == [es[1], es[2]] && es[1..][1..] == [es[2]] && es[1..][1..][1..] == [];
    assert EnabledRun(b2, [es[2]]) && Run(b2, [es[2]]) == Step(b2, es[2]);
    assert Run(IDLE, es) == Step(b2, es[2]);
    assert [BUY][1..] == [] && [] + [BUY] == [BUY];
  }

  // ------------------------------------------------------------------
  // The bridge object
  // ------------------------------------------------------------------

  class MT5Bridge {
    var queue: seq<Command>
    var futures: map<CommandId, Future>
    ghost var issued: seq<Command>
    ghost var delivered: seq<Command>
    ghost var endings: map<CommandId, Ending>

    ghost function State(): Bridge
      reads this
    {
      Bridge(queue, futures, issued, delivered, endings)
    }

    constructor ()
      ensures State() == IDLE
    {
      queue, futures, issued, delivered, endings := [], map[], [], [], map[];
    }

    /** The first half of _enqueue_and_wait, up to the await. */
    method EnqueueCommand(id: CommandId, action: string)
      requires Enabled(State(), Enqueue(Command(id, action)))
      modifies this
      ensures State() == Step(old(State()), Enqueue(Command(id, action)))
    {
      futures := futures[id := Waiting];
      queue := queue + [Command(id, action)];
      issued := issued + [Command(id, action)];
    }

    /** GET /mt5/command: the oldest queued command, or none. */
    method HandleCommand() returns (c: Option<Command>)
      modifies this
      ensures State() == Step(old(State()), Poll)
      ensures c == if old(queue) == [] then None else Some(old(queue)[0])
    {
      if queue == [] {
        return None;
      }
      c := Some(queue[0]);
      delivered := delivered + [queue[0]];
      queue := queue[1..];
    }

    /** POST /mt5/result: an unreadable body is refused; otherwise pop the future and resolve it. */
    method HandleResult(request: Option<Body>) returns (accepted: bool, resolved: bool)
      modifies this
      ensures accepted == request.Some?
      ensures request.None? ==> State() == old(State()) && !resolved
      ensures request.Some? ==> State() == Step(old(State()), Result(request.value))
                                && resolved == IsWaiting(old(State()), IdOf(request.value))
    {
      accepted, resolved := request.Some?, false;
      if request.None? {
        return;
      }
      var id := IdOf(request.value);
      if id in futures {
        resolved := futures[id] == Waiting;
        if resolved {
          endings := endings[id := Answered(request.value)];
        }
      }
      futures := futures - {id};
    }

    /** The wait ran out: the future leaves the table and the caller gets an error. */
    method ExpireWait(id: CommandId)
      requires IsWaiting(State(), id)
      modifies this
      ensures State() == Step(old(State()), Timeout(id))
    {
      futures := futures - {id};
      endings := endings[id := TimedOut];
    }

    /** The waiting coroutine was cancelled: only the timeout branch cleans up, so the entry stays. */
    method CancelWait(id: CommandId)
      requires IsWaiting(State(), id)
      modifies this
      ensures State() == Step(old(State()), Cancel(id))
    {
      futures := futures[id := Cancelled];
      endings := endings[id := Abandoned];
    }
  }
}
