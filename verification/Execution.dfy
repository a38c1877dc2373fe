/**
 Runs of the supervisor's event loop are runs of the step system, as long as the
 environment offers only what transport, broker, scheduler and worker can do.
 With it the safety of the system is the safety of the loop.
 */
module Execution {
  import opened Wrappers
  import opened Client
  import opened System
  import opened Invariants
  import opened Reachability
  import opened Refinement
  import opened Theorems
  import opened Freshness

  // ---- lawful environments

  /** The other actors' steps lead from `s` to `t` and look to the supervisor like these moves. */
  ghost predicate Moved(s: Sys, steps: seq<Step>, moves: seq<Move>, t: Sys)
    decreases |steps|
  {
    if steps == [] then t == s && moves == []
    else
      && Enabled(s, steps[0]) && OfOthers(steps[0])
      && MovesOf(s, steps[0]) <= moves
      && Moved(Apply(s, steps[0]), steps[1..], moves[|MovesOf(s, steps[0])|..], t)
  }

  /** One leg of a turn: moves of the others, then a step of the supervisor that may poll an event. */
  datatype Leg = Leg(moves: seq<Move>, step: Step, event: Event)

  /** The supervisor's next step is possible; an event it polls is the oldest one the transport has. */
  predicate Offered(s: Sys, leg: Leg) {
    && Enabled(s, leg.step)
    && (leg.step == Acts(EventPolled) || leg.step == Acts(DrainEvent) ==> s.link.events[0] == leg.event)
  }

  function PollLeg(moves: seq<Move>, event: Event, act: Act): (leg: Leg) {
    if event.Other? then Leg(moves, Wakes(OtherPolled), Other) else Leg(moves, Acts(act), event)
  }

  /** The legs of the shutdown tail. */
  function TailLegs(polls: seq<Poll>): (legs: seq<Leg>) {
    if polls == [] then [Leg([], Wakes(DrainOver), Other)]
    else if polls[0].event.None? then [Leg(polls[0].before, Wakes(DrainOver), Other)]
    else [PollLeg(polls[0].before, polls[0].event.value, DrainEvent)] + TailLegs(polls[1..])
  }

  /** The legs of a turn. */
  function Legs(turn: Turn, polls: seq<Poll>): (legs: seq<Leg>) {
    var last := Leg(turn.late, Acts(EndTurn), Other);
    match turn.input
    case ShutdownRequested => [Leg(turn.before, Acts(StartShutdown), Other)] + TailLegs(polls)
    case ConnAck => [Leg(turn.before, Wakes(ConnAckPolled), Other), Leg(turn.during, Acts(RequestFresh), Other)]
    case Polled(event) => [PollLeg(turn.before, event, EventPolled), last]
    case PollFailed(stop) =>
      [Leg(turn.before, Wakes(PollError), Other)]
      + if stop then [Leg(turn.late, Wakes(BackoffShutdown), Other)]
        else [Leg(turn.late, Wakes(BackoffOver), Other), Leg([], Acts(EndTurn), Other)]
    case StatesChanged(alive) =>
      if alive then
        [Leg(turn.before, Wakes(Wake.StatesChanged), Other), Leg(turn.during, Acts(PublishWoken), Other), last]
      else [Leg(turn.before, Wakes(StatesClosed), Other), last]
  }

  /** The legs are offered one after the other from `s` and lead to `t`; nothing follows the supervisor's end. */
  ghost predicate Course(s: Sys, legs: seq<Leg>, t: Sys)
    decreases |legs|
  {
    if legs == [] || s.pc.Exited? || s.pc.Failed? then t == s
    else
      exists steps, u ::
        && Moved(s, steps, legs[0].moves, u)
        && Offered(u, legs[0])
        && Course(Apply(u, legs[0].step), legs[1..], t)
  }

  /** A run of turns in a lawful environment. */
  ghost predicate Lawful(s: Sys, turns: seq<Turn>, polls: seq<Poll>, t: Sys)
    decreases |turns|
  {
    if turns == [] || s.pc.Exited? || s.pc.Failed? then t == s
    else exists u :: Course(s, Legs(turns[0], polls), u) && Lawful(u, turns[1..], polls, t)
  }

  // ---- one leg

  /** The system's state is what the code's progress says. */
  ghost predicate Agrees(s: Sys, p: Progress) {
    match p
    case Looping(c) => s.pc.Head? && s.core == c
    case Ended(c) => s.pc.Exited? && s.core == c.(queue := [])
    case QueueRejected => false
  }

  lemma {:induction false} MovesAreSteps(s: Sys, steps: seq<Step>, moves: seq<Move>, t: Sys)
    requires Moved(s, steps, moves, t) && Reachable(s)
    ensures Reachable(t) && t.pc == s.pc && t.core == Advance(s.core, moves)
    decreases |steps|
  {
    hide Enabled, Apply, MovesOf, AfterMove, Invariant, Reachable;
    if steps != [] {
      var first := MovesOf(s, steps[0]);
      OthersAreMoves(s, steps[0]);
      StepIsReachable(s, steps[0]);
      MovesAreSteps(Apply(s, steps[0]), steps[1..], moves[|first|..], t);
      AdvanceMore(s.core, first, moves[|first|..]);
      assert moves == first + moves[|first|..];
    } else {
      NoMoves(s.core);
    }
  }

  /** Takes the first leg of a course. */
  lemma FirstLeg(s: Sys, legs: seq<Leg>, t: Sys) returns (u: Sys)
    requires Course(s, legs, t) && Reachable(s) && legs != [] && !s.pc.Exited? && !s.pc.Failed?
    ensures Reachable(u) && u.pc == s.pc && u.core == Advance(s.core, legs[0].moves) && Offered(u, legs[0])
    ensures var v := Apply(u, legs[0].step); Reachable(v) && !v.pc.Failed? && Course(v, legs[1..], t)
  {
    hide Advance, Enabled, Apply, Invariant, Reachable, Moved;
    var steps, w :|
      && Moved(s, steps, legs[0].moves, w) && Offered(w, legs[0])
      && Course(Apply(w, legs[0].step), legs[1..], t);
    MovesAreSteps(s, steps, legs[0].moves, w);
    StepIsReachable(w, legs[0].step);
    u := w;
  }

  // ---- one turn

  lemma TurnOver(s: Sys, legs: seq<Leg>, t: Sys)
    requires Course(s, legs, t) && (legs == [] || s.pc.Exited?)
    ensures t == s
  {
  }

  /** What each step of the supervisor computes, when the queue takes its request. */
  lemma StepComputes(s: Sys, step: Step)
    requires Enabled(s, step) && !OfOthers(step) && !Apply(s, step).pc.Failed?
    ensures var t := Apply(s, step); match step
      case Wakes(ConnAckPolled) => s.pc.Head? && t.pc.Greeting? && t.core == Acknowledge(s.core)
      case Wakes(PollError) => s.pc.Head? && t.pc.Backoff? && t.core == LoseConnection(s.core)
      case Wakes(BackoffOver) => s.pc.Backoff? && t.pc.Settling? && t.core == s.core
      case Wakes(BackoffShutdown) =>
        s.pc.Backoff? && t.pc.Exited? && t.core == s.core.(status := Status.Stopped, queue := [])
      case Wakes(StatesChanged) =>
        s.pc.Head? && t.pc.Waking? && t.core == s.core.(seen := s.core.states.version) && s.core.machine.AcceptsState()
      case Wakes(StatesClosed) => s.pc.Head? && t.pc.Settling? && t.core == s.core && s.core.machine.AcceptsState()
      case Wakes(OtherPolled) => t.core == s.core && (if s.pc.Head? then t.pc.Settling? else t.pc == s.pc)
      case Wakes(DrainOver) =>
        s.pc.Draining? && t.pc.Exited? && t.core == s.core.(status := Status.Stopped, queue := [])
      case Acts(RequestFresh) => s.pc.Greeting? && t.pc.Head? && StartBootstrap(s.core) == Some(t.core)
      case Acts(EventPolled) => s.pc.Head? && t.pc.Settling? && HandleEvent(s.core, s.link.events[0]) == Some(t.core)
      case Acts(PublishWoken) => s.pc.Waking? && t.pc.Settling? && PublishCurrentState(s.core) == Some(t.core)
      case Acts(EndTurn) => s.pc.Settling? && t.pc.Head? && Settle(s.core) == Some(t.core)
      case _ => true
  {
    hide StartBootstrap, HandleEvent, PublishCurrentState, Settle, BeginShutdown;
    match step {
      case Wakes(wake) =>
      case Acts(act) =>
      case Carries(carry) =>
      case Runs(daemon) =>
    }
  }

  /** The end of a turn: the last moves, then the check. */
  lemma LastLeg(s: Sys, late: seq<Move>, legs: seq<Leg>, t: Sys)
    requires Reachable(s) && s.pc.Settling? && Course(s, legs, t) && legs == [Leg(late, Acts(EndTurn), Other)]
    ensures Reachable(t) && Agrees(t, Conclude(Some(s.core), late))
  {
    hide Course, Reachable, Invariant, Enabled, Apply, Offered, Advance, Settle;
    var u := FirstLeg(s, legs, t);
    OfferedIsEnabled(u, legs[0]);
    StepComputes(u, legs[0].step);
    TurnOver(Apply(u, legs[0].step), legs[1..], t);
  }

  lemma OfferedIsEnabled(s: Sys, leg: Leg)
    requires Offered(s, leg)
    ensures Enabled(s, leg.step)
    ensures leg.step == Acts(EventPolled) || leg.step == Acts(DrainEvent) ==>
        s.link.events != [] && s.link.events[0] == leg.event
  {
  }

  lemma PolledTurn(s: Sys, turn: Turn, polls: seq<Poll>, t: Sys)
    requires Reachable(s) && s.pc.Head? && Course(s, Legs(turn, polls), t) && turn.input.Polled?
    ensures Reachable(t) && Agrees(t, RunTurn(s.core, turn, polls))
  {
    var legs := Legs(turn, polls);
    hide Course, Reachable, Invariant, Enabled, Apply, Offered, Advance, Settle, HandleEvent, Conclude;
    var u := FirstLeg(s, legs, t);
    OfferedIsEnabled(u, legs[0]);
    StepComputes(u, legs[0].step);
    OtherChangesNothing(u.core);
    LastLeg(Apply(u, legs[0].step), turn.late, legs[1..], t);
  }

  lemma ConnAckTurn(s: Sys, turn: Turn, polls: seq<Poll>, t: Sys)
    requires Reachable(s) && s.pc.Head? && Course(s, Legs(turn, polls), t) && turn.input.ConnAck?
    ensures Reachable(t) && Agrees(t, RunTurn(s.core, turn, polls))
  {
    var legs := Legs(turn, polls);
    hide Course, Reachable, Invariant, Enabled, Apply, Offered, Advance, StartBootstrap, Acknowledge;
    var u := FirstLeg(s, legs, t);
    OfferedIsEnabled(u, legs[0]);
    StepComputes(u, legs[0].step);
    var v := FirstLeg(Apply(u, legs[0].step), legs[1..], t);
    OfferedIsEnabled(v, legs[1]);
    StepComputes(v, legs[1].step);
    TurnOver(Apply(v, legs[1].step), legs[1..][1..], t);
  }

  lemma LostTurn(s: Sys, turn: Turn, polls: seq<Poll>, t: Sys)
    requires Reachable(s) && s.pc.Head? && Course(s, Legs(turn, polls), t) && turn.input.PollFailed?
    ensures Reachable(t) && Agrees(t, RunTurn(s.core, turn, polls))
  {
    var legs := Legs(turn, polls);
    hide Course, Reachable, Invariant, Enabled, Apply, Offered, Advance, LoseConnection, Settle;
    var u := FirstLeg(s, legs, t);
    OfferedIsEnabled(u, legs[0]);
    StepComputes(u, legs[0].step);
    var v := FirstLeg(Apply(u, legs[0].step), legs[1..], t);
    OfferedIsEnabled(v, legs[1]);
    StepComputes(v, legs[1].step);
    var w := Apply(v, legs[1].step);
    if turn.input.shutdownDuringBackoff {
      TurnOver(w, legs[1..][1..], t);
    } else {
      assert legs[1..][1..] == [Leg([], Acts(EndTurn), Other)];
      LastLeg(w, [], legs[1..][1..], t);
      NoMoves(w.core);
    }
  }

  lemma ChangedTurn(s: Sys, turn: Turn, polls: seq<Poll>, t: Sys)
    requires Reachable(s) && s.pc.Head? && Course(s, Legs(turn, polls), t) && turn.input.StatesChanged?
    ensures Reachable(t) && Agrees(t, RunTurn(s.core, turn, polls))
  {
    var legs := Legs(turn, polls);
    hide Course, Reachable, Invariant, Enabled, Apply, Offered, Advance, PublishCurrentState, Conclude;
    var u := FirstLeg(s, legs, t);
    OfferedIsEnabled(u, legs[0]);
    StepComputes(u, legs[0].step);
    if turn.input.senderAlive {
      var v := FirstLeg(Apply(u, legs[0].step), legs[1..], t);
      OfferedIsEnabled(v, legs[1]);
      StepComputes(v, legs[1].step);
      assert legs[1..][1..] == [Leg(turn.late, Acts(EndTurn), Other)];
      LastLeg(Apply(v, legs[1].step), turn.late, legs[1..][1..], t);
    } else {
      LastLeg(Apply(u, legs[0].step), turn.late, legs[1..], t);
    }
  }

  // ---- the shutdown tail

  lemma StartComputes(s: Sys)
    requires CanAct(s, StartShutdown) && !AfterAct(s, StartShutdown).pc.Failed?
    ensures var t, (r, awaiting) := AfterAct(s, StartShutdown), BeginShutdown(s.core);
      && r.Some?
      && if awaiting then t.pc.Draining? && t.core == r.value else t.pc.Exited? && t.core == r.value.(queue := [])
  {
  }

  lemma DrainComputes(s: Sys)
    requires CanAct(s, DrainEvent) && !AfterAct(s, DrainEvent).pc.Failed?
    ensures var t, event := AfterAct(s, DrainEvent), s.link.events[0];
      var r := HandleEvent(s.core, event);
      && r.Some?
      && if event.OutgoingDisconnect? || r.value.machine.phase.Stopped? then
           t.pc.Exited? && t.core == r.value.(status := Status.Stopped, queue := [])
         else t.pc.Draining? && t.core == r.value
  {
    hide HandleEvent;
  }

  lemma {:induction false} Tail(s: Sys, polls: seq<Poll>, t: Sys)
    requires Reachable(s) && s.pc.Draining? && Course(s, TailLegs(polls), t)
    ensures Reachable(t) && Agrees(t, Drain(s.core, polls))
    decreases |polls|
  {
    var legs := TailLegs(polls);
    hide Course, Reachable, Invariant, Enabled, Apply, Offered, Advance, HandleEvent;
    var u := FirstLeg(s, legs, t);
    OfferedIsEnabled(u, legs[0]);
    var v := Apply(u, legs[0].step);
    if polls == [] || polls[0].event.None? {
      StepComputes(u, legs[0].step);
      NoMoves(s.core);
      TurnOver(v, legs[1..], t);
    } else {
      DrainingPhase(u);
      TailEvent(u, legs[0], v);
      if v.pc.Exited? {
        TurnOver(v, legs[1..], t);
      } else {
        assert legs[1..] == TailLegs(polls[1..]);
        Tail(v, polls[1..], t);
      }
    }
  }

  /** While the tail waits the machine is in a phase of the shutdown. */
  lemma DrainingPhase(s: Sys)
    requires Reachable(s) && s.pc.Draining?
    ensures !s.core.machine.phase.Stopped?
  {
    hide LinkOk, NetOk, BrokerOk, SlotsOk, IdsOk, FreshOk, Apply, Enabled, Reachable;
    InvariantAlways(s);
  }

  /** One event of the tail. */
  lemma TailEvent(s: Sys, leg: Leg, t: Sys)
    requires Enabled(s, leg.step) && t == Apply(s, leg.step) && !t.pc.Failed?
    requires s.pc.Draining? && !s.core.machine.phase.Stopped?
    requires if leg.event.Other? then leg.step == Wakes(OtherPolled)
             else leg.step == Acts(DrainEvent) && s.link.events != [] && s.link.events[0] == leg.event
    ensures var r := HandleEvent(s.core, leg.event);
      && r.Some?
      && if leg.event.OutgoingDisconnect? || r.value.machine.phase.Stopped? then
           t.pc.Exited? && t.core == r.value.(status := Status.Stopped, queue := [])
         else t.pc.Draining? && t.core == r.value
  {
    hide HandleEvent;
    if leg.event.Other? {
      OtherChangesNothing(s.core);
    } else {
      DrainComputes(s);
    }
  }

  lemma ShutdownTurn(s: Sys, turn: Turn, polls: seq<Poll>, t: Sys)
    requires Reachable(s) && s.pc.Head? && Course(s, Legs(turn, polls), t) && turn.input.ShutdownRequested?
    ensures Reachable(t) && Agrees(t, RunTurn(s.core, turn, polls))
  {
    var legs := Legs(turn, polls);
    hide Course, Reachable, Invariant, Offered, Advance, BeginShutdown, Drain, TailLegs;
    var u := FirstLeg(s, legs, t);
    OfferedIsEnabled(u, legs[0]);
    StartComputes(u);
    var v := Apply(u, legs[0].step);
    if v.pc.Exited? {
      TurnOver(v, legs[1..], t);
    } else {
      assert legs[1..] == TailLegs(polls);
      Tail(v, polls, t);
    }
  }

  /** One turn of the code in a lawful environment is a path of the system, and ends where the system ends. */
  lemma TurnIsACourse(s: Sys, turn: Turn, polls: seq<Poll>, t: Sys)
    requires Reachable(s) && s.pc.Head? && Course(s, Legs(turn, polls), t)
    ensures Reachable(t) && Agrees(t, RunTurn(s.core, turn, polls))
  {
    hide Course, Reachable, RunTurn, Legs;
    match turn.input {
      case ShutdownRequested => ShutdownTurn(s, turn, polls, t);
      case ConnAck => ConnAckTurn(s, turn, polls, t);
      case Polled(_) => PolledTurn(s, turn, polls, t);
      case PollFailed(_) => LostTurn(s, turn, polls, t);
      case StatesChanged(_) => ChangedTurn(s, turn, polls, t);
    }
  }

  // ---- whole runs

  /** A run of the code in a lawful environment is a run of the system; no request is ever rejected. */
  lemma {:induction false} LawfulRunsAreRuns(s: Sys, turns: seq<Turn>, polls: seq<Poll>, t: Sys)
    requires Reachable(s) && s.pc.Head? && Lawful(s, turns, polls, t)
    ensures Reachable(t) && Agrees(t, RunTurns(s.core, turns, polls))
    decreases |turns|
  {
    hide Course, Reachable, RunTurn, Legs;
    if turns != [] {
      var u :| Course(s, Legs(turns[0], polls), u) && Lawful(u, turns[1..], polls, t);
      TurnIsACourse(s, turns[0], polls, u);
      if u.pc.Head? {
        LawfulRunsAreRuns(u, turns[1..], polls, t);
      }
    }
  }

  lemma {:induction false} TailEndsStopped(c: Core, polls: seq<Poll>)
    ensures Drain(c, polls).Ended? ==> Drain(c, polls).core.status.Stopped?
    decreases |polls|
  {
    hide Advance, HandleEvent;
    if polls != [] && polls[0].event.Some? {
      var r := HandleEvent(Advance(c, polls[0].before), polls[0].event.value);
      if r.Some? {
        TailEndsStopped(r.value, polls[1..]);
      }
    }
  }

  lemma TurnEndsStopped(c: Core, turn: Turn, polls: seq<Poll>)
    ensures RunTurn(c, turn, polls).Ended? ==> RunTurn(c, turn, polls).core.status.Stopped?
  {
    hide Advance, HandleEvent, PublishCurrentState, StartBootstrap, Drain, Settle;
    var (r, awaiting) := BeginShutdown(Advance(c, turn.before));
    if r.Some? {
      TailEndsStopped(r.value, polls);
    }
  }

  /** A run of the loop that has ended reports that it has stopped. */
  lemma {:induction false} EndsStopped(c: Core, turns: seq<Turn>, polls: seq<Poll>)
    ensures RunTurns(c, turns, polls).Ended? ==> RunTurns(c, turns, polls).core.status.Stopped?
    decreases |turns|
  {
    hide RunTurn;
    if turns != [] {
      TurnEndsStopped(c, turns[0], polls);
      var p := RunTurn(c, turns[0], polls);
      if p.Looping? {
        EndsStopped(p.core, turns[1..], polls);
      }
    }
  }

  lemma InitIsReachable(s: Sys)
    requires Init(s)
    ensures Reachable(s)
  {
    assert ReachableBy(s, []);
  }

  /**
   What the loop of a new supervisor returns and leaves behind in a lawful environment:
   never the error of a full queue, and the state of the system it runs in.
   */
  lemma LawfulRunsNeverFail(s: Sys, turns: seq<Turn>, polls: seq<Poll>, t: Sys, exit: Exit, core: Core)
    requires Init(s) && Lawful(s, turns, polls, t)
    requires Matches(exit, core, RunTurns(INITIAL_CORE, turns, polls))
    ensures exit != ControlQueueUnavailable
    ensures Reachable(t) && t.core == if exit == Clean then core.(queue := []) else core
    ensures if exit == Clean then t.pc.Exited? && core.status.Stopped? else t.pc.Head?
  {
    hide Reachable, Lawful, RunTurns, BrokerOk;
    InitIsReachable(s);
    LawfulRunsAreRuns(s, turns, polls, t);
    EndsStopped(INITIAL_CORE, turns, polls);
  }

  /** What such a run has published: fresh for its connection, never twice; and what its end means to subscribers. */
  lemma LawfulRunsAreSafe(s: Sys, turns: seq<Turn>, polls: seq<Poll>, t: Sys, exit: Exit, core: Core)
    requires Init(s) && Lawful(s, turns, polls, t)
    requires Matches(exit, core, RunTurns(INITIAL_CORE, turns, polls))
    ensures core.requests.value < U64_MAX ==>
      && Increasing(PublishedIds(core.published))
      && forall i :: 0 <= i < |core.published| ==> core.published[i].message.begunIn == core.published[i].connection
    ensures t.broker.session == 0 ==> !t.broker.availability.RetainedOnline?
    ensures exit == StillRunning && core.status.Online? && t.link.conn == t.broker.session ==>
      t.broker.availability.RetainedOnline?
  {
    hide Reachable, Lawful, RunTurns, Init, BrokerOk;
    LawfulRunsNeverFail(s, turns, polls, t, exit, core);
    AvailabilityNeverLies(t);
    if BelowSaturation(t) {
      NoReplay(t);
      PublishedStatesAreFresh(t);
    }
    if exit == StillRunning && core.status.Online? && t.link.conn == t.broker.session {
      ReportedOnlineIsVisible(t);
    }
  }

  // ---- lawful turns exist

  /** Puts a leg without moves before a course. */
  lemma LegBefore(s: Sys, legs: seq<Leg>, t: Sys)
    requires legs != [] && legs[0].moves == [] && Offered(s, legs[0]) && !s.pc.Exited? && !s.pc.Failed?
    requires Course(Apply(s, legs[0].step), legs[1..], t)
    ensures Course(s, legs, t)
  {
    hide Enabled, Apply;
    assert Moved(s, [], legs[0].moves, s);
  }

  /** After each step of a turn the next one is possible, whatever it computed. */
  lemma NextStep(s: Sys, step: Step)
    requires Enabled(s, step) && !OfOthers(step) && !Apply(s, step).pc.Failed?
    ensures var t := Apply(s, step); match step
      case Wakes(ConnAckPolled) => Enabled(t, Acts(RequestFresh))
      case Wakes(PollError) => Enabled(t, Wakes(BackoffOver)) && (s.shutdown ==> Enabled(t, Wakes(BackoffShutdown)))
      case Wakes(BackoffOver) => Enabled(t, Acts(EndTurn))
      case Wakes(StatesChanged) => Enabled(t, Acts(PublishWoken))
      case Wakes(StatesClosed) => Enabled(t, Acts(EndTurn))
      case Wakes(OtherPolled) => s.pc.Head? ==> Enabled(t, Acts(EndTurn))
      case Acts(EventPolled) => Enabled(t, Acts(EndTurn))
      case Acts(PublishWoken) => Enabled(t, Acts(EndTurn))
      case Acts(StartShutdown) => t.pc.Exited? || Enabled(t, Wakes(DrainOver))
      case _ => true
  {
    hide StartBootstrap, HandleEvent, PublishCurrentState, Settle;
    StepComputes(s, step);
    if step == Acts(StartShutdown) {
      StartComputes(s);
    }
  }

  /** Takes a leg and goes on if anything is left to do. */
  lemma TakeLeg(s: Sys, leg: Leg) returns (t: Sys)
    requires Reachable(s) && Offered(s, leg)
    ensures t == Apply(s, leg.step) && Reachable(t) && !t.pc.Failed?
  {
    hide Enabled, Apply, Reachable;
    StepIsReachable(s, leg.step);
    t := Apply(s, leg.step);
  }

  /** Every input the system offers at the loop head makes a turn that can be taken to its end. */
  lemma OfferedInputsAreTaken(s: Sys, input: Input) returns (t: Sys)
    requires Reachable(s) && s.pc.Head? && Offered(s, Legs(Turn([], input, [], []), [])[0])
    requires input == PollFailed(true) ==> s.shutdown
    ensures Course(s, Legs(Turn([], input, [], []), []), t)
  {
    hide Enabled, Apply, Reachable, Course;
    var legs := Legs(Turn([], input, [], []), []);
    var u := TakeLeg(s, legs[0]);
    NextStep(s, legs[0].step);
    if u.pc.Exited? {
      t := u;
      NothingFollows(u, legs[1..]);
    } else {
      var v := TakeLeg(u, legs[1]);
      NextStep(u, legs[1].step);
      t := v;
      if |legs| == 3 {
        EndTurnSettles(v);
        t := TakeLeg(v, legs[2]);
        NothingFollows(t, legs[3..]);
        LegBefore(v, legs[2..], t);
      } else {
        NothingFollows(v, legs[2..]);
      }
      assert legs[1..][1..] == legs[2..];
      LegBefore(u, legs[1..], t);
    }
    LegBefore(s, legs, t);
  }

  lemma EndTurnSettles(s: Sys)
    requires Enabled(s, Acts(EndTurn))
    ensures s.pc.Settling?
  {
  }

  lemma NothingFollows(s: Sys, legs: seq<Leg>)
    requires legs == [] || s.pc.Exited?
    ensures Course(s, legs, s)
  {
  }
}
