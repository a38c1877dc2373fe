/**
 The step system does nothing the supervisor's event loop does not: in every
 reachable state the supervisor's half is what the code has computed after some
 turns, at the point of the next turn where the state says it is.  The converse,
 from runs of the loop to runs of the system, is in `Execution`.
 */
module Refinement {
  import opened Wrappers
  import opened Client
  import opened System
  import opened Invariants
  import opened Reachability

  // ---- runs of the code

  lemma {:induction false} AdvanceMore(c: Core, moves: seq<Move>, more: seq<Move>)
    ensures Advance(c, moves + more) == Advance(Advance(c, moves), more)
    decreases |moves|
  {
    hide AfterMove;
    if moves == [] {
      assert moves + more == more;
    } else {
      assert (moves + more)[1..] == moves[1..] + more;
      AdvanceMore(AfterMove(c, moves[0]), moves[1..], more);
    }
  }

  lemma {:induction false} OneMoreTurn(c: Core, turns: seq<Turn>, turn: Turn, polls: seq<Poll>)
    requires RunTurns(c, turns, []).Looping?
    ensures RunTurns(c, turns + [turn], polls) == RunTurn(RunTurns(c, turns, []).core, turn, polls)
    decreases |turns|
  {
    hide RunTurn;
    if turns == [] {
      assert turns + [turn] == [turn];
      assert RunTurns(c, [turn], polls) == RunTurn(c, turn, polls) by {
        var p := RunTurn(c, turn, polls);
        assert p.Looping? ==> RunTurns(p.core, [turn][1..], polls) == Looping(p.core);
      }
    } else {
      assert (turns + [turn])[1..] == turns[1..] + [turn];
      LoopingTurn(c, turns[0], [], polls);
      OneMoreTurn(RunTurn(c, turns[0], []).core, turns[1..], turn, polls);
    }
  }

  lemma LoopingTurn(c: Core, turn: Turn, polls: seq<Poll>, others: seq<Poll>)
    requires RunTurn(c, turn, polls).Looping?
    ensures RunTurn(c, turn, others) == RunTurn(c, turn, polls)
  {
    hide Advance, StartBootstrap, HandleEvent, PublishCurrentState, BeginShutdown, Drain;
    var c0 := Advance(c, turn.before);
    if turn.input.ShutdownRequested? && BeginShutdown(c0).0.Some? {
      DrainingEnds(BeginShutdown(c0).0.value, polls);
    }
  }

  lemma {:induction false} DrainingEnds(c: Core, polls: seq<Poll>)
    ensures !Drain(c, polls).Looping?
    decreases |polls|
  {
    hide Advance, HandleEvent;
    if polls != [] {
      var r := if polls[0].event.Some? then HandleEvent(Advance(c, polls[0].before), polls[0].event.value) else None;
      if r.Some? {
        DrainingEnds(r.value, polls[1..]);
      }
    }
  }

  // ---- the points of a turn

  /** What a turn has computed when it comes to the moves before the check at its end. */
  function HalfTurn(c: Core, turn: Turn): (r: Option<Core>) {
    var c0 := Advance(c, turn.before);
    match turn.input
    case Polled(event) => HandleEvent(c0, event)
    case PollFailed(stop) => if stop then None else Some(LoseConnection(c0))
    case StatesChanged(alive) =>
      if !c0.machine.AcceptsState() then None
      else if alive then PublishCurrentState(Advance(c0.(seen := c0.states.version), turn.during))
      else Some(c0)
    case _ => None
  }

  /** Where the supervisor is in a turn, and the moves of the others so far. */
  datatype Point =
    | AtHead(before: seq<Move>)
    | InGreeting(before: seq<Move>, during: seq<Move>)
    | InWaking(before: seq<Move>, during: seq<Move>)
    | InBackoff(before: seq<Move>, late: seq<Move>)
    | InSettling(turn: Turn)
    | InDraining(before: seq<Move>, started: Core, polls: seq<Poll>, drained: Core, between: seq<Move>)

  /** However the tail goes on, after these polls it is at `drained`. */
  ghost predicate DrainsTo(started: Core, polls: seq<Poll>, drained: Core) {
    forall more: seq<Poll> :: Drain(started, polls + more) == Drain(drained, more)
  }

  /** The code, having begun a turn at core `c`, is at this point of it. */
  ghost predicate AtPoint(s: Sys, c: Core, point: Point) {
    match point
    case AtHead(before) => s.pc.Head? && s.core == Advance(c, before)
    case InGreeting(before, during) => s.pc.Greeting? && s.core == Advance(Acknowledge(Advance(c, before)), during)
    case InWaking(before, during) =>
      var c0 := Advance(c, before);
      s.pc.Waking? && c0.machine.AcceptsState() && s.core == Advance(c0.(seen := c0.states.version), during)
    case InBackoff(before, late) => s.pc.Backoff? && s.core == Advance(LoseConnection(Advance(c, before)), late)
    case InSettling(turn) =>
      s.pc.Settling? && HalfTurn(c, turn).Some? && s.core == Advance(HalfTurn(c, turn).value, turn.late)
    case InDraining(before, started, polls, drained, between) =>
      && s.pc.Draining?
      && BeginShutdown(Advance(c, before)) == (Some(started), true)
      && DrainsTo(started, polls, drained)
      && s.core == Advance(drained, between)
  }

  /** These turns of the code lead to this point. */
  ghost predicate Traced(s: Sys, turns: seq<Turn>, point: Point) {
    && RunTurns(INITIAL_CORE, turns, []).Looping?
    && AtPoint(s, RunTurns(INITIAL_CORE, turns, []).core, point)
  }

  /** The code's run has ended as the state says. */
  ghost predicate Finished(s: Sys, turns: seq<Turn>, polls: seq<Poll>) {
    && s.pc.Exited?
    && RunTurns(INITIAL_CORE, turns, polls).Ended?
    && s.core == RunTurns(INITIAL_CORE, turns, polls).core.(queue := [])
  }

  // ---- steps of the other actors

  predicate OfOthers(step: Step) {
    step.Carries? || step.Runs?
  }

  /** What a step of another actor does to the supervisor's shared state. */
  function MovesOf(s: Sys, step: Step): (moves: seq<Move>)
    requires Enabled(s, step) && OfOthers(step)
  {
    match step
    case Carries(Write(_)) => [RequestWritten]
    case Runs(WorkerStore) => [StateStored(Message(s.worker.id, s.worker.begunIn))]
    case Runs(SchedulerRequest) => [CollectionAsked]
    case Runs(SchedulerStart) => if s.shutdown then [] else [CollectionAsked]
    case _ => []
  }

  /** To the supervisor, whatever the others do is one of its moves or nothing. */
  lemma OthersAreMoves(s: Sys, step: Step)
    requires Enabled(s, step) && OfOthers(step)
    ensures Apply(s, step).pc == s.pc
    ensures Apply(s, step).core == Advance(s.core, MovesOf(s, step))
  {
    var moves := MovesOf(s, step);
    assert moves != [] ==> Advance(s.core, moves) == Advance(AfterMove(s.core, moves[0]), moves[1..]);
    match step {
      case Carries(carry) =>
      case Runs(daemon) =>
    }
  }

  function MovedPoint(point: Point, moves: seq<Move>): (point': Point) {
    match point
    case AtHead(before) => AtHead(before + moves)
    case InGreeting(before, during) => InGreeting(before, during + moves)
    case InWaking(before, during) => InWaking(before, during + moves)
    case InBackoff(before, late) => InBackoff(before, late + moves)
    case InSettling(turn) => InSettling(turn.(late := turn.late + moves))
    case InDraining(before, started, polls, drained, between) =>
      InDraining(before, started, polls, drained, between + moves)
  }

  lemma TracedByOthers(s: Sys, step: Step, turns: seq<Turn>, point: Point)
    requires Traced(s, turns, point) && Enabled(s, step) && OfOthers(step)
    ensures Traced(Apply(s, step), turns, MovedPoint(point, MovesOf(s, step)))
  {
    OthersAreMoves(s, step);
    hide Apply, Enabled, MovesOf, Advance, RunTurns, BeginShutdown, HandleEvent, PublishCurrentState, DrainsTo;
    var c, moves := RunTurns(INITIAL_CORE, turns, []).core, MovesOf(s, step);
    match point {
      case AtHead(before) =>
        AdvanceMore(c, before, moves);
      case InGreeting(before, during) =>
        AdvanceMore(Acknowledge(Advance(c, before)), during, moves);
      case InWaking(before, during) =>
        var c0 := Advance(c, before);
        AdvanceMore(c0.(seen := c0.states.version), during, moves);
      case InBackoff(before, late) =>
        AdvanceMore(LoseConnection(Advance(c, before)), late, moves);
      case InSettling(turn) =>
        AdvanceMore(HalfTurn(c, turn).value, turn.late, moves);
      case InDraining(before, started, polls, drained, between) =>
        AdvanceMore(drained, between, moves);
    }
  }

  // ---- steps of the supervisor

  /** The point the loop is at after a step of its own that does not end a turn. */
  function NextPoint(s: Sys, step: Step, point: Point): (point': Point)
    requires Enabled(s, step) && !OfOthers(step)
  {
    match (step, point)
    case (Wakes(ConnAckPolled), AtHead(before)) => InGreeting(before, [])
    case (Wakes(StatesChanged), AtHead(before)) => InWaking(before, [])
    case (Wakes(PollError), AtHead(before)) => InBackoff(before, [])
    case (Wakes(OtherPolled), AtHead(before)) => InSettling(Turn(before, Polled(Other), [], []))
    case (Wakes(StatesClosed), AtHead(before)) => InSettling(Turn(before, Input.StatesChanged(false), [], []))
    case (Wakes(BackoffOver), InBackoff(before, late)) => InSettling(Turn(before, PollFailed(false), [], late))
    case (Acts(EventPolled), AtHead(before)) => InSettling(Turn(before, Polled(s.link.events[0]), [], []))
    case (Acts(PublishWoken), InWaking(before, during)) =>
      InSettling(Turn(before, Input.StatesChanged(true), during, []))
    case (Acts(StartShutdown), AtHead(before)) =>
      InDraining(before, AfterAct(s, StartShutdown).core, [], AfterAct(s, StartShutdown).core, [])
    case (Acts(DrainEvent), InDraining(before, started, polls, _, between)) =>
      InDraining(before, started, polls + [Poll(between, Some(s.link.events[0]))], AfterAct(s, DrainEvent).core, [])
    case _ => point
  }

  /** The steps that bring the loop back to its head. */
  predicate EndsTurn(step: Step) {
    step == Acts(RequestFresh) || step == Acts(EndTurn)
  }

  /** The turn such a step ends. */
  function TurnOf(point: Point): (turn: Turn) {
    match point
    case InGreeting(before, during) => Turn(before, ConnAck, during, [])
    case InSettling(turn) => turn
    case _ => Turn([], ShutdownRequested, [], [])
  }

  lemma TurnEnds(s: Sys, step: Step, turns: seq<Turn>, point: Point)
    requires Traced(s, turns, point) && Enabled(s, step) && EndsTurn(step) && !Apply(s, step).pc.Failed?
    ensures Traced(Apply(s, step), turns + [TurnOf(point)], AtHead([]))
  {
    hide RunTurns, Advance, BeginShutdown, HandleEvent, PublishCurrentState, StartBootstrap, Settle, DrainsTo;
    var c := RunTurns(INITIAL_CORE, turns, []).core;
    OneMoreTurn(INITIAL_CORE, turns, TurnOf(point), []);
    assert Advance(Apply(s, step).core, []) == Apply(s, step).core by { NoMoves(Apply(s, step).core); }
  }

  lemma DrainsOn(started: Core, polls: seq<Poll>, drained: Core, poll: Poll)
    requires DrainsTo(started, polls, drained)
    ensures forall more: seq<Poll> :: Drain(started, polls + [poll] + more) == Drain(drained, [poll] + more)
  {
    forall more: seq<Poll>
      ensures Drain(started, polls + [poll] + more) == Drain(drained, [poll] + more)
    {
      assert polls + [poll] + more == polls + ([poll] + more);
    }
  }

  lemma OwnStep(s: Sys, step: Step, turns: seq<Turn>, point: Point)
    requires Traced(s, turns, point) && Enabled(s, step) && !OfOthers(step) && !EndsTurn(step)
    requires !Apply(s, step).pc.Failed? && !Apply(s, step).pc.Exited?
    ensures Traced(Apply(s, step), turns, NextPoint(s, step, point))
  {
    hide RunTurns, Advance, BeginShutdown, HandleEvent, PublishCurrentState, StartBootstrap, Settle, DrainsTo, Drain;
    match step {
      case Wakes(wake) =>
        NoMoves(Apply(s, step).core);
        OtherChangesNothing(s.core);
      case Acts(act) => OwnAct(s, act, turns, point);
      case Carries(carry) =>
      case Runs(daemon) =>
    }
  }

  lemma OwnAct(s: Sys, act: Act, turns: seq<Turn>, point: Point)
    requires Traced(s, turns, point) && CanAct(s, act) && !EndsTurn(Acts(act))
    requires !AfterAct(s, act).pc.Failed? && !AfterAct(s, act).pc.Exited?
    ensures Traced(AfterAct(s, act), turns, NextPoint(s, Acts(act), point))
  {
    hide RunTurns, Advance, BeginShutdown, HandleEvent, PublishCurrentState, StartBootstrap, Settle, DrainsTo, Drain;
    var t := AfterAct(s, act);
    NoMoves(t.core);
    match act {
      case DrainEvent =>
        DrainsFurther(point.started, point.polls, point.drained, Poll(point.between, Some(s.link.events[0])), t.core);
      case StartShutdown => DrainsToItself(t.core);
      case EventPolled =>
      case PublishWoken =>
      case RequestFresh =>
      case EndTurn =>
    }
  }

  lemma OtherChangesNothing(c: Core)
    ensures HandleEvent(c, Other) == Some(c)
  {
  }

  lemma DrainsToItself(c: Core)
    ensures DrainsTo(c, [], c)
  {
    forall more: seq<Poll>
      ensures Drain(c, [] + more) == Drain(c, more)
    {
      assert [] + more == more;
    }
  }

  lemma DrainsFurther(started: Core, polls: seq<Poll>, drained: Core, poll: Poll, after: Core)
    requires DrainsTo(started, polls, drained) && poll.event.Some?
    requires HandleEvent(Advance(drained, poll.before), poll.event.value) == Some(after)
    requires !poll.event.value.OutgoingDisconnect? && !after.machine.phase.Stopped?
    ensures DrainsTo(started, polls + [poll], after)
  {
    hide HandleEvent, Advance;
    DrainsOn(started, polls, drained, poll);
    forall more: seq<Poll>
      ensures Drain(started, polls + [poll] + more) == Drain(after, more)
    {
      assert ([poll] + more)[1..] == more;
    }
  }

  /** The steps that end the run of the loop, and the last turn and shutdown tail they make. */
  lemma ExitStep(s: Sys, step: Step, turns: seq<Turn>, point: Point) returns (last: Turn, polls: seq<Poll>)
    requires Traced(s, turns, point) && Enabled(s, step) && step != Wakes(Killed)
    requires !s.pc.Exited? && Apply(s, step).pc.Exited?
    ensures Finished(Apply(s, step), turns + [last], polls)
  {
    hide RunTurns, Advance, BeginShutdown, HandleEvent, PublishCurrentState, StartBootstrap, Settle, DrainsTo, Drain;
    hide Traced, Finished;
    OnlyExits(s, step);
    if s.pc.Draining? {
      PointOfPc(s, turns, point);
      last, polls := ExitFromTail(s, step, turns, point);
    } else if s.pc.Backoff? {
      PointOfPc(s, turns, point);
      polls := [];
      last := ExitFromBackoff(s, turns, point);
    } else {
      PointOfPc(s, turns, point);
      polls := [];
      last := ExitFromHead(s, turns, point);
    }
  }

  lemma OnlyExits(s: Sys, step: Step)
    requires Enabled(s, step) && step != Wakes(Killed) && !s.pc.Exited? && Apply(s, step).pc.Exited?
    ensures
      || s.pc.Draining?
      || (s.pc.Backoff? && step == Wakes(BackoffShutdown))
      || (s.pc.Head? && step == Acts(StartShutdown))
  {
    match step {
      case Wakes(wake) =>
      case Acts(act) =>
      case Carries(carry) =>
      case Runs(daemon) =>
    }
  }

  lemma PointOfPc(s: Sys, turns: seq<Turn>, point: Point)
    requires Traced(s, turns, point)
    ensures s.pc.Draining? ==> point.InDraining?
    ensures s.pc.Backoff? ==> point.InBackoff?
    ensures s.pc.Head? ==> point.AtHead?
  {
  }

  lemma ExitFromBackoff(s: Sys, turns: seq<Turn>, point: Point) returns (last: Turn)
    requires Traced(s, turns, point) && point.InBackoff? && CanWake(s, BackoffShutdown)
    ensures Finished(AfterWake(s, BackoffShutdown), turns + [last], [])
  {
    hide RunTurns, Advance, LoseConnection, Conclude, Shutdown;
    last := Turn(point.before, PollFailed(true), [], point.late);
    OneMoreTurn(INITIAL_CORE, turns, last, []);
  }

  lemma ExitFromHead(s: Sys, turns: seq<Turn>, point: Point) returns (last: Turn)
    requires Traced(s, turns, point) && point.AtHead? && CanAct(s, StartShutdown)
    requires AfterAct(s, StartShutdown).pc.Exited?
    ensures Finished(AfterAct(s, StartShutdown), turns + [last], [])
  {
    hide RunTurns, Advance, BeginShutdown, Drain, Conclude;
    last := Turn(point.before, ShutdownRequested, [], []);
    OneMoreTurn(INITIAL_CORE, turns, last, []);
  }

  lemma ExitFromTail(s: Sys, step: Step, turns: seq<Turn>, point: Point) returns (last: Turn, polls: seq<Poll>)
    requires Traced(s, turns, point) && Enabled(s, step) && step != Wakes(Killed) && point.InDraining?
    requires Apply(s, step).pc.Exited?
    ensures Finished(Apply(s, step), turns + [last], polls)
  {
    hide RunTurns, Advance, BeginShutdown, HandleEvent, PublishCurrentState, StartBootstrap, Settle, DrainsTo, Drain;
    last := Turn(point.before, ShutdownRequested, [], []);
    var poll := Poll(point.between, if step == Acts(DrainEvent) then Some(s.link.events[0]) else None);
    polls := point.polls + [poll];
    DrainsOnce(point.started, point.polls, point.drained, poll);
    LastPoll(point.drained, poll);
    OneMoreTurn(INITIAL_CORE, turns, last, polls);
  }

  lemma DrainsOnce(started: Core, polls: seq<Poll>, drained: Core, poll: Poll)
    requires DrainsTo(started, polls, drained)
    ensures Drain(started, polls + [poll]) == Drain(drained, [poll])
  {
    hide Drain;
    DrainsOn(started, polls, drained, poll);
    assert polls + [poll] + [] == polls + [poll] && [poll] + [] == [poll];
  }

  lemma LastPoll(c: Core, poll: Poll)
    ensures var c0 := Advance(c, poll.before);
      && (poll.event.None? ==> Drain(c, [poll]) == Ended(c0.(status := Status.Stopped)))
      && (poll.event.Some? && HandleEvent(c0, poll.event.value).Some? ==>
            Drain(c, [poll]) == Ended(HandleEvent(c0, poll.event.value).value.(status := Status.Stopped)))
  {
    hide HandleEvent, Advance;
  }

  // ---- all runs

  lemma ExitIsFinal(s: Sys, step: Step)
    requires Enabled(s, step) && s.pc.Exited?
    ensures Apply(s, step).pc.Exited?
  {
    match step {
      case Wakes(wake) =>
      case Acts(act) =>
      case Carries(carry) =>
      case Runs(daemon) =>
    }
  }

  lemma {:induction false} TraceOf(s: Sys, steps: seq<Step>) returns (turns: seq<Turn>, point: Point)
    requires ReachableBy(s, steps) && !s.pc.Exited?
    ensures Traced(s, turns, point)
    decreases |steps|
  {
    hide Enabled, Apply, Invariant, Traced;
    if steps == [] {
      turns, point := [], AtHead([]);
      TracedInitially(s);
    } else {
      var earlier, last := steps[..|steps| - 1], steps[|steps| - 1];
      var before :| ReachableBy(before, earlier) && Steps(before, last, s);
      if before.pc.Exited? {
        ExitIsFinal(before, last);
      }
      turns, point := TraceOf(before, earlier);
      assert Reachable(before);
      StepIsReachable(before, last);
      if OfOthers(last) {
        TracedByOthers(before, last, turns, point);
        point := MovedPoint(point, MovesOf(before, last));
      } else if EndsTurn(last) {
        TurnEnds(before, last, turns, point);
        turns, point := turns + [TurnOf(point)], AtHead([]);
      } else {
        OwnStep(before, last, turns, point);
        point := NextPoint(before, last, point);
      }
    }
  }

  lemma TracedInitially(s: Sys)
    requires Init(s)
    ensures Traced(s, [], AtHead([]))
  {
  }

  /**
   In every reachable state the supervisor is at a point of a run of the code's loop, with
   what that run has computed.
   */
  lemma SystemFollowsTheCode(s: Sys)
    requires Reachable(s) && !s.pc.Exited?
    ensures exists turns, point :: Traced(s, turns, point)
    ensures s.pc.Head? ==> exists turns, moves ::
      RunTurns(INITIAL_CORE, turns, []).Looping? && s.core == Advance(RunTurns(INITIAL_CORE, turns, []).core, moves)
  {
    hide RunTurns, Advance, Enabled, Apply;
    var steps :| ReachableBy(s, steps);
    var turns, point := TraceOf(s, steps);
    if s.pc.Head? {
      assert s.core == Advance(RunTurns(INITIAL_CORE, turns, []).core, point.before);
    }
  }

  /** Unless the process is killed, the supervisor leaves only as the code's run ends, with its final state. */
  lemma SystemEndsAsTheCode(s: Sys, step: Step)
    requires Reachable(s) && Enabled(s, step) && step != Wakes(Killed)
    requires !s.pc.Exited? && Apply(s, step).pc.Exited?
    ensures exists turns, polls :: Finished(Apply(s, step), turns, polls)
  {
    hide Enabled, Apply, Traced, Finished;
    var steps :| ReachableBy(s, steps);
    var turns, point := TraceOf(s, steps);
    var last, polls := ExitStep(s, step, turns, point);
  }
}
