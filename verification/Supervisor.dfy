/** The MQTT supervisor as the code has it: an object whose event loop updates its fields in place. */
module Supervisor {
  import opened Wrappers
  import opened Watch
  import opened Bootstrap
  import opened Client
  import opened Backoff

  // ---- the pace of reconnections

  /** The failures since the last acknowledged connection, and the word of the jitter generator. */
  datatype Pacing = Pacing(attempt: nat, word: bv64)

  function NextPacing(p: Pacing, input: Input): (p': Pacing) {
    match input
    case ConnAck => p.(attempt := 0)
    case PollFailed(_) => Pacing(Min(p.attempt + 1, USIZE_MAX), Scramble(p.word))
    case _ => p
  }

  /** How long a turn waits before the next connection attempt, if at all. */
  function Pause(p: Pacing, input: Input): (delay: Option<real>) {
    if input.PollFailed? then Some(DelayFor(p.attempt, Unit(Scramble(p.word)))) else None
  }

  lemma OnlyLostTurnsPause(p: Pacing, input: Input)
    ensures !input.PollFailed? ==> Pause(p, input) == None
    ensures !input.PollFailed? && !input.ConnAck? ==> NextPacing(p, input) == p
    ensures input.ConnAck? ==> NextPacing(p, input) == Pacing(0, p.word)
    ensures input.PollFailed? ==>
      NextPacing(p, input) == NextPacing(p, PollFailed(false)) && Pause(p, input) == Pause(p, PollFailed(false))
  {
  }

  function PacingAfter(p: Pacing, turns: seq<Turn>): (p': Pacing) {
    if turns == [] then p
    else NextPacing(PacingAfter(p, turns[..|turns| - 1]), turns[|turns| - 1].input)
  }

  /** The delay of each turn, in order. */
  function Pauses(p: Pacing, turns: seq<Turn>): (delays: seq<Option<real>>)
    ensures |delays| == |turns|
  {
    if turns == [] then []
    else
      var before := turns[..|turns| - 1];
      Pauses(p, before) + [Pause(PacingAfter(p, before), turns[|turns| - 1].input)]
  }

  /** Failed polls since the last acknowledged connection. */
  function LostInARow(turns: seq<Turn>): (n: nat) {
    if turns == [] then 0
    else
      match turns[|turns| - 1].input
      case ConnAck => 0
      case PollFailed(_) => LostInARow(turns[..|turns| - 1]) + 1
      case _ => LostInARow(turns[..|turns| - 1])
  }

  lemma {:induction false} PacingCounts(word: bv64, turns: seq<Turn>)
    ensures PacingAfter(Pacing(0, word), turns).attempt == Min(LostInARow(turns), USIZE_MAX)
    decreases |turns|
  {
    hide Scramble;
    if turns != [] {
      PacingCounts(word, turns[..|turns| - 1]);
    }
  }

  lemma {:induction false} JitterNeverDies(word: bv64, turns: seq<Turn>)
    requires Alive(word)
    ensures Alive(PacingAfter(Pacing(0, word), turns).word)
    decreases |turns|
  {
    hide Scramble, Unit, Alive;
    if turns != [] {
      var before := turns[..|turns| - 1];
      JitterNeverDies(word, before);
      StaysAlive(PacingAfter(Pacing(0, word), before).word);
    }
  }

  /**
   For every run, exactly the failed polls pause, each within 20% of the entry for the
   failures in a row before it, and never as short as the jitter of a dead generator.
   */
  lemma {:induction false} PausesAreBounded(word: bv64, turns: seq<Turn>, i: nat)
    requires Alive(word) && i < |turns|
    ensures var delay := Pauses(Pacing(0, word), turns)[i];
      && (delay.Some? <==> turns[i].input.PollFailed?)
      && (delay.Some? ==>
            0.8 * Base(LostInARow(turns[..i])) as real < delay.value <= 1.2 * Base(LostInARow(turns[..i])) as real)
    decreases |turns|
  {
    hide Scramble, Unit, Alive, DelayFor, Base;
    var before := turns[..|turns| - 1];
    if i < |before| {
      PausesAreBounded(word, before, i);
      assert before[..i] == turns[..i];
    } else {
      assert before == turns[..i];
      PacingCounts(word, before);
      JitterNeverDies(word, before);
      var p := PacingAfter(Pacing(0, word), before);
      StaysAlive(p.word);
      SameEntry(LostInARow(before));
      DelayIsBounded(p.attempt, Unit(Scramble(p.word)));
    }
  }

  lemma SameEntry(failures: nat)
    ensures Base(Min(failures, USIZE_MAX)) == Base(failures)
  {
  }

  // ---- the supervisor

  class MqttSupervisor {
    const machine: BootstrapMachine
    const backoff: RetryBackoff
    const jitter: Jitter
    const requests: WatchSlot<u64>
    const states: WatchSlot<Option<Message>>
    var status: Status
    var queue: seq<Action>
    var seen: nat
    ghost var epoch: nat
    ghost var issued: seq<Action>
    ghost var published: seq<Published>

    ghost const Repr: set<object> := {this, machine, requests, states}

    ghost function Abstract(): (c: Core)
      reads Repr
    {
      Core(machine.State(), status, queue, requests.Snapshot(), states.Snapshot(), seen, epoch, issued, published)
    }

    ghost predicate Valid()
      reads this, backoff
    {
      requests as object != states as object && backoff.Valid()
    }

    ghost function Pace(): (p: Pacing)
      reads backoff, jitter
    {
      Pacing(backoff.attempt, jitter.word)
    }

    constructor (requests: WatchSlot<u64>, states: WatchSlot<Option<Message>>, seed: bv64)
      requires requests.Snapshot() == Slot(0, 0) && states.Snapshot() == Slot(None, 0)
      ensures Abstract() == INITIAL_CORE
      ensures fresh(machine) && this.requests == requests && this.states == states
      ensures fresh(backoff) && fresh(jitter) && backoff.Valid() && Pace() == Pacing(0, Seeded(seed))
          && Alive(jitter.word)
    {
      var m := new BootstrapMachine();
      backoff := new RetryBackoff();
      jitter := new Jitter(seed);
      machine, this.requests, this.states := m, requests, states;
      status, queue, seen := Status.Disconnected, [], 0;
      epoch, issued, published := 0, [], [];
    }

    method Perform(action: Action) returns (ok: bool)
      modifies this`queue, this`issued
      ensures ok <==> |old(queue)| < 16
      ensures ok <==> Client.Perform(old(Abstract()), action).Some?
      ensures ok ==> Some(Abstract()) == Client.Perform(old(Abstract()), action)
      ensures !ok ==> Abstract() == old(Abstract())
    {
      ok := |queue| < REQUEST_CHANNEL_CAPACITY;
      if ok {
        queue := queue + [action];
        issued := issued + [action];
      }
    }

    method HandleEvent(event: Event) returns (ok: bool)
      modifies Repr
      ensures ok <==> Client.HandleEvent(old(Abstract()), event).Some?
      ensures ok ==> Some(Abstract()) == Client.HandleEvent(old(Abstract()), event)
    {
      var action: Option<Action> := None;
      match event {
        case OutgoingPublish(_, packetId) => machine.OutgoingPublish(packetId);
        case PubAck(_, packetId) => action := machine.PublishAcknowledged(packetId);
        case OutgoingDisconnect => machine.Disconnected();
        case Other =>
      }
      ok := true;
      if action.Some? {
        ok := Perform(action.value);
      }
    }

    method PublishCurrentState() returns (ok: bool)
      modifies Repr
      ensures ok <==> Client.PublishCurrentState(old(Abstract())).Some?
      ensures ok ==> Some(Abstract()) == Client.PublishCurrentState(old(Abstract()))
    {
      seen := states.version;
      ok := true;
      if states.value.Some? {
        var message := states.value.value;
        var action := machine.StateAvailable(message.requestId);
        if action.Some? {
          published := published + [Published(message, epoch)];
          ok := Perform(action.value);
        }
      }
    }

    method StartBootstrap() returns (ok: bool)
      requires requests as object != states as object
      modifies Repr
      ensures ok <==> Client.StartBootstrap(old(Abstract())).Some?
      ensures ok ==> Some(Abstract()) == Client.StartBootstrap(old(Abstract()))
    {
      var requestId := RequestCollection(requests);
      status := Bootstrapping;
      var action := machine.Connected(requestId);
      ok := Perform(action);
    }

    /**
     The other actors: the worker stores states, the transport writes requests, the scheduler
     asks for collections.
     */
    method Others(moves: seq<Move>)
      requires requests as object != states as object
      modifies requests, states, this`queue
      ensures Abstract() == Advance(old(Abstract()), moves)
    {
      var i := 0;
      while i < |moves|
        invariant 0 <= i <= |moves|
        invariant Advance(Abstract(), moves[i..]) == Advance(old(Abstract()), moves)
      {
        match moves[i] {
          case StateStored(message) => states.SendReplace(Some(message));
          case RequestWritten => if queue != [] { queue := queue[1..]; }
          case CollectionAsked => var _ := RequestCollection(requests);
        }
        i := i + 1;
      }
    }

    method EndOfTurn() returns (ok: bool)
      modifies Repr
      ensures ok <==> Settle(old(Abstract())).Some?
      ensures ok ==> Some(Abstract()) == Settle(old(Abstract()))
    {
      ok := true;
      var just := machine.JustBecameOnline();
      if just {
        status := Status.Online;
        ok := PublishCurrentState();
      } else if machine.phase.Online? {
        status := Status.Online;
      }
    }

    method GracefulShutdown(polls: seq<Poll>) returns (exit: Exit)
      requires requests as object != states as object
      modifies Repr
      ensures Matches(exit, Abstract(), Client.Shutdown(old(Abstract()), polls))
    {
      hide Client.HandleEvent, Advance;
      status := Status.ShuttingDown;
      var action := machine.Shutdown();
      if action.None? {
        status := Status.Stopped;
        return Clean;
      }
      var ok := Perform(action.value);
      if !ok {
        return ControlQueueUnavailable;
      }
      ghost var started := Abstract();
      var i := 0;
      while i < |polls|
        invariant 0 <= i <= |polls|
        invariant Drain(Abstract(), polls[i..]) == Drain(started, polls)
      {
        Others(polls[i].before);
        if polls[i].event.None? {
          break;
        }
        var event := polls[i].event.value;
        ok := HandleEvent(event);
        if !ok {
          return ControlQueueUnavailable;
        }
        if event.OutgoingDisconnect? || machine.phase.Stopped? {
          break;
        }
        i := i + 1;
      }
      status := Status.Stopped;
      exit := Clean;
    }

    /** The failed poll of a turn: everything pending is gone, and the next attempt has to wait. */
    method Disconnect() returns (delay: real)
      requires Valid()
      modifies Repr, backoff, jitter
      ensures Valid() && Abstract() == LoseConnection(old(Abstract()))
      ensures Pace() == NextPacing(old(Pace()), PollFailed(false))
      ensures Some(delay) == Pause(old(Pace()), PollFailed(false))
    {
      hide Scramble;
      machine.ConnectionLost();
      status, queue := Status.Disconnected, [];
      var unit := jitter.NextUnit();
      delay := backoff.NextDelay(Finite(unit));
    }

    /** The acknowledged connection of a turn. */
    method Connect(during: seq<Move>) returns (ok: bool)
      requires Valid()
      modifies Repr, backoff
      ensures var r := Client.StartBootstrap(Advance(Acknowledge(old(Abstract())), during));
        (ok <==> r.Some?) && (ok ==> Some(Abstract()) == r)
      ensures ok && during == [] ==>
        seen == states.version == old(states.version) && requests.version == old(requests.version) + 1
      ensures Valid() && Pace() == NextPacing(old(Pace()), ConnAck)
    {
      hide Advance;
      backoff.Reset();
      seen, epoch, issued := states.version, epoch + 1, [];
      NoMoves(Abstract());
      Others(during);
      ok := StartBootstrap();
    }

    /** The changed state slot of a turn: marked as seen, read a moment later. */
    method PublishChange(during: seq<Move>) returns (ok: bool)
      requires Valid()
      modifies Repr
      ensures var c := old(Abstract());
        var r := Client.PublishCurrentState(Advance(c.(seen := c.states.version), during));
        (ok <==> r.Some?) && (ok ==> Some(Abstract()) == r)
    {
      hide Advance, Client.PublishCurrentState;
      seen := states.version;
      Others(during);
      ok := PublishCurrentState();
    }

    method Turn(turn: Turn, polls: seq<Poll>) returns (exit: Exit, delay: Option<real>)
      requires Valid()
      modifies Repr, backoff, jitter
      ensures Valid() && Matches(exit, Abstract(), RunTurn(old(Abstract()), turn, polls))
      ensures Pace() == NextPacing(old(Pace()), turn.input) && delay == Pause(old(Pace()), turn.input)
    {
      hide Advance, Shutdown, Acknowledge, LoseConnection, Client.StartBootstrap, Client.HandleEvent,
          Client.PublishCurrentState, Settle;
      hide Scramble, Unit, DelayFor, NextPacing, Pause;
      OnlyLostTurnsPause(Pace(), turn.input);
      Others(turn.before);
      var ok := true;
      delay := None;
      match turn.input {
        case ShutdownRequested =>
          exit := GracefulShutdown(polls);
          return;
        case ConnAck =>
          ok := Connect(turn.during);
          return if ok then StillRunning else ControlQueueUnavailable, None;
        case Polled(event) =>
          ok := HandleEvent(event);
        case PollFailed(stop) =>
          var wait := Disconnect();
          delay := Some(wait);
          if stop {
            Others(turn.late);
            status := Status.Stopped;
            return Clean, delay;
          }
        case StatesChanged(alive) =>
          if !machine.AcceptsState() { return StillRunning, None; }
          if alive {
            ok := PublishChange(turn.during);
          }
      }
      if !ok { return ControlQueueUnavailable, delay; }
      Others(turn.late);
      ok := EndOfTurn();
      exit := if ok then StillRunning else ControlQueueUnavailable;
    }

    /** Any number of turns; also the delay of each turn the run has taken. */
    method Run(turns: seq<Turn>, polls: seq<Poll>) returns (exit: Exit, delays: seq<Option<real>>)
      requires Valid()
      modifies Repr, backoff, jitter
      ensures Valid() && Matches(exit, Abstract(), RunTurns(old(Abstract()), turns, polls))
      ensures |delays| <= |turns| && (exit == StillRunning ==> |delays| == |turns|)
      ensures delays == Pauses(old(Pace()), turns[..|delays|]) && Pace() == PacingAfter(old(Pace()), turns[..|delays|])
    {
      hide RunTurn, NextPacing, Pause;
      exit, delays := StillRunning, [];
      var i := 0;
      while i < |turns|
        invariant 0 <= i <= |turns| && Valid()
        invariant RunTurns(Abstract(), turns[i..], polls) == RunTurns(old(Abstract()), turns, polls)
        invariant delays == Pauses(old(Pace()), turns[..i]) && Pace() == PacingAfter(old(Pace()), turns[..i])
        invariant exit == StillRunning
      {
        assert turns[..i + 1][..i] == turns[..i];
        var delay;
        exit, delay := Turn(turns[i], polls);
        delays := delays + [delay];
        if exit != StillRunning {
          return;
        }
        i := i + 1;
      }
    }
  }
}
