/**
 The MQTT supervisor: what one turn of its event loop does to the bootstrap
 machine, the control queue, the two watch slots and the reported status.

 The functions on `Core` give the meaning of each piece of supervisor code.  The
 class `MqttSupervisor` is the code; the step system takes the same functions
 apart at the points where other actors can run in between.
 */
module Client {
  import opened Wrappers
  import opened Watch
  import opened Bootstrap

  const REQUEST_CHANNEL_CAPACITY: nat := 16
  const MAX_INFLIGHT: nat := 4

  datatype Status = Disconnected | Bootstrapping | Online | ShuttingDown | Stopped

  /**
   A collected state.  Its payload is represented by the number of connection
   acknowledgements the supervisor had received when its collection began.
   */
  datatype Message = Message(requestId: u64, begunIn: nat)

  /**
   What polling the event loop yields.  Both publish events carry the action they
   belong to for the specification; the supervisor reads the packet identifier only.
   */
  datatype Event =
    | OutgoingPublish(action: Action, packetId: PacketId)
    | OutgoingDisconnect
    | PubAck(action: Action, packetId: PacketId)
    | Other

  /** A state handed to the client, with the number of the connection that carries it. */
  datatype Published = Published(message: Message, connection: nat)

  datatype Core = Core(
    machine: Machine,
    status: Status,
    queue: seq<Action>,              // control requests not yet written to the network
    requests: Slot<u64>,             // collection request slot
    states: Slot<Option<Message>>,   // collected state slot
    seen: nat,                       // state version the supervisor last marked as seen
    epoch: nat,                      // connection acknowledgements received so far
    issued: seq<Action>,             // history: actions performed on the present connection
    published: seq<Published>)       // history: states published in the whole run

  const INITIAL_CORE :=
    Core(INITIAL_MACHINE, Status.Disconnected, [], Slot(0, 0), Slot(None, 0), 0, 0, [], [])

  /** Nothing when the bounded control queue rejects the request. */
  function Perform(c: Core, action: Action): (r: Option<Core>) {
    if |c.queue| >= REQUEST_CHANNEL_CAPACITY then None
    else Some(c.(queue := c.queue + [action], issued := c.issued + [action]))
  }

  function PerformReply(c: Core, reply: Reply): (r: Option<Core>) {
    var c' := c.(machine := reply.machine);
    match reply.action
    case None => Some(c')
    case Some(action) => Perform(c', action)
  }

  function HandleEvent(c: Core, event: Event): (r: Option<Core>) {
    match event
    case OutgoingPublish(_, packetId) => Some(c.(machine := c.machine.OutgoingPublish(packetId)))
    case PubAck(_, packetId) => PerformReply(c, c.machine.PublishAcknowledged(packetId))
    case OutgoingDisconnect => Some(c.(machine := c.machine.Disconnected()))
    case Other => Some(c)
  }

  function PublishCurrentState(c: Core): (r: Option<Core>) {
    var c' := c.(seen := c.states.version);
    match c.states.value
    case None => Some(c')
    case Some(message) =>
      var reply := c.machine.StateAvailable(message.requestId);
      if reply.action.None? then Some(c')
      else PerformReply(c'.(published := c.published + [Published(message, c.epoch)]), reply)
  }

  /** First half of a connection acknowledgement: whatever state is in the slot is stale. */
  function Acknowledge(c: Core): (c': Core) {
    c.(seen := c.states.version, epoch := c.epoch + 1, issued := [])
  }

  /** Second half: ask for a fresh collection and start the bootstrap. */
  function StartBootstrap(c: Core): (r: Option<Core>) {
    var requests := Requested(c.requests);
    PerformReply(c.(requests := requests, status := Bootstrapping),
                 Reply(c.machine.Connected(requests.value), Some(PublishDiscovery)))
  }

  /** A lost connection; the event loop drops every request that was still pending. */
  function LoseConnection(c: Core): (c': Core) {
    c.(machine := c.machine.ConnectionLost(), status := Status.Disconnected, queue := [])
  }

  /** The end of every loop turn. */
  function Settle(c: Core): (r: Option<Core>) {
    if c.machine.becameOnline then
      PublishCurrentState(c.(machine := c.machine.(becameOnline := false), status := Status.Online))
    else if c.machine.phase.Online? then
      Some(c.(status := Status.Online))
    else
      Some(c)
  }

  /** Entry of the graceful shutdown; the flag says whether there is an offline publication to wait for. */
  function BeginShutdown(c: Core): (r: (Option<Core>, bool)) {
    var reply := c.machine.Shutdown();
    if reply.action.None? then
      (Some(c.(machine := reply.machine, status := Status.Stopped)), false)
    else
      (PerformReply(c.(status := Status.ShuttingDown), reply), true)
  }

  // ---- whole runs of the loop, for a given behaviour of the environment

  /** What the loop waits for and gets; `PollFailed` is a failed poll, cut short by a shutdown or not. */
  datatype Input =
    | ShutdownRequested
    | ConnAck
    | Polled(event: Event)
    | PollFailed(shutdownDuringBackoff: bool)
    | StatesChanged(senderAlive: bool)

  /**
   What other actors do to the supervisor's shared state: store a state, write a queued
   request, ask for a collection.
   */
  datatype Move = StateStored(message: Message) | RequestWritten | CollectionAsked

  /**
   One loop turn: the input, and the moves of the other actors before it, between
   its two halves, and before the check at the end of the turn.
   */
  datatype Turn = Turn(before: seq<Move>, input: Input, during: seq<Move>, late: seq<Move>)

  /** One poll of the shutdown tail; an absent event is a failed poll or the expired deadline. */
  datatype Poll = Poll(before: seq<Move>, event: Option<Event>)

  datatype Progress =
    | Looping(core: Core)
    | Ended(core: Core)
    | QueueRejected

  function AfterMove(c: Core, move: Move): (c': Core) {
    match move
    case StateStored(message) => c.(states := c.states.Replace(Some(message)))
    case RequestWritten => if c.queue == [] then c else c.(queue := c.queue[1..])
    case CollectionAsked => c.(requests := Requested(c.requests))
  }

  function Advance(c: Core, moves: seq<Move>): (c': Core)
    decreases |moves|
  {
    if moves == [] then c else Advance(AfterMove(c, moves[0]), moves[1..])
  }

  lemma NoMoves(c: Core)
    ensures Advance(c, []) == c
  {
  }

  /** The end of a turn, up to the loop head. */
  function Conclude(r: Option<Core>, late: seq<Move>): (p: Progress) {
    match r
    case None => QueueRejected
    case Some(c) =>
      match Settle(Advance(c, late))
      case None => QueueRejected
      case Some(c') => Looping(c')
  }

  function Drain(c: Core, polls: seq<Poll>): (p: Progress)
    decreases |polls|
  {
    if polls == [] then Ended(c.(status := Status.Stopped))
    else
      var c0 := Advance(c, polls[0].before);
      if polls[0].event.None? then Ended(c0.(status := Status.Stopped))
      else
        match HandleEvent(c0, polls[0].event.value)
        case None => QueueRejected
        case Some(c') =>
          if polls[0].event.value.OutgoingDisconnect? || c'.machine.phase.Stopped? then
            Ended(c'.(status := Status.Stopped))
          else Drain(c', polls[1..])
  }

  function Shutdown(c: Core, polls: seq<Poll>): (p: Progress) {
    match BeginShutdown(c)
    case (None, _) => QueueRejected
    case (Some(c'), awaiting) => if awaiting then Drain(c', polls) else Ended(c')
  }

  function RunTurn(c: Core, turn: Turn, polls: seq<Poll>): (p: Progress) {
    var c0 := Advance(c, turn.before);
    match turn.input
    case ShutdownRequested => Shutdown(c0, polls)
    case ConnAck =>
      (match StartBootstrap(Advance(Acknowledge(c0), turn.during))
       case None => QueueRejected
       case Some(c') => Looping(c'))
    case Polled(event) => Conclude(HandleEvent(c0, event), turn.late)
    case PollFailed(stop) =>
      var lost := LoseConnection(c0);
      if stop then Ended(Advance(lost, turn.late).(status := Status.Stopped)) else Conclude(Some(lost), turn.late)
    case StatesChanged(alive) =>
      if !c0.machine.AcceptsState() then Looping(c0)
      else if alive then
        Conclude(PublishCurrentState(Advance(c0.(seen := c0.states.version), turn.during)), turn.late)
      else Conclude(Some(c0), turn.late)
  }

  function RunTurns(c: Core, turns: seq<Turn>, polls: seq<Poll>): (p: Progress)
    decreases |turns|
  {
    if turns == [] then Looping(c)
    else
      var p := RunTurn(c, turns[0], polls);
      if p.Looping? then RunTurns(p.core, turns[1..], polls) else p
  }

  datatype Exit = StillRunning | Clean | ControlQueueUnavailable

  /** How a run of the code matches a run of the functions. */
  ghost predicate Matches(exit: Exit, core: Core, p: Progress) {
    match p
    case Looping(c) => exit == StillRunning && core == c
    case Ended(c) => exit == Clean && core == c
    case QueueRejected => exit == ControlQueueUnavailable
  }
}
