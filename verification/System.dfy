/**
 The whole publication system as a step system: supervisor, client transport,
 network, broker, collection scheduler and collection worker.

 Rules of the transport and the broker (MQTT Version 3.1.1, OASIS):
 requests are written in the order they were accepted; a written publish yields
 one outgoing event, with packet identifier 0 at QoS 0 and an identifier not in
 use otherwise (section 2.3.1); the broker processes a connection's packets in
 order (section 4.6) and acknowledges a QoS 1 publish after processing it
 (section 4.3.2); RETAIN replaces the stored message (section 3.3.1.3); a session
 that ends without DISCONNECT has its Will published (section 3.1.2.5), one that
 ends with DISCONNECT has not (section 3.14.4); a new CONNECT for the client
 ends the older session (section 3.1.4).  Sessions are clean, so losing a
 connection drops everything the client had pending.
 */
module System {
  import opened Wrappers
  import opened Watch
  import opened Bootstrap
  import opened Client
  import opened Protocol

  /** A packet on the wire; also what an acknowledgement refers to. */
  datatype Packet = Packet(action: Action, packetId: PacketId)

  /** The client's end of its present connection; number 0 means not connected. */
  datatype Link = Link(
    conn: nat,
    offered: nat,             // accepted by the broker, acknowledgement not yet polled
    unacked: seq<Packet>,     // written QoS 1 publishes not yet acknowledged to the client
    events: seq<Event>,       // event-loop events not yet polled
    acks: seq<Packet>,        // acknowledgements on their way to the client
    acked: seq<Action>,       // history: publishes whose acknowledgement was polled
    settled: seq<Action>)     // history: QoS 1 publishes of this connection the broker has processed

  const NO_LINK := Link(0, 0, [], [], [], [], [])

  datatype Availability = Unset | RetainedOnline | RetainedOffline

  /** The broker's side: at most one live session for the client. */
  datatype Broker = Broker(
    session: nat,             // connection number of the live session, 0 when there is none
    wire: seq<Packet>,        // received on that session and not yet processed
    processed: seq<Action>,   // history: processed on that session
    availability: Availability,
    discovered: bool,         // the Discovery document is retained
    connections: nat)         // CONNECT packets accepted so far

  datatype Worker =
    | Idle
    | Woken
    | Chosen(id: u64)
    | Collecting(id: u64, begunIn: nat)
    | Collected(id: u64, begunIn: nat)
    | Stored
    | Failing
    | Dead
    | Finished

  datatype Scheduler = NotStarted | Waiting | Decided | Halted

  /** Where the supervisor is: its awaits, and the gaps in which the worker thread can run. */
  datatype Pc =
    | Head          // waiting in the main select
    | Greeting      // CONNACK received, slot marked as seen, fresh state not yet requested
    | Waking        // state change observed and marked as seen, slot not yet read
    | Settling      // before the end-of-turn check
    | Backoff
    | Draining      // graceful shutdown
    | Exited
    | Failed        // the control queue rejected a request

  datatype Sys = Sys(
    pc: Pc,
    core: Core,
    link: Link,
    broker: Broker,
    scheduler: Scheduler,
    worker: Worker,
    workerSeen: nat,          // request version the worker last marked as seen
    collected: seq<u64>,      // history: identifiers of the stored states
    shutdown: bool)

  /** What the supervisor's awaits end with. */
  datatype Wake =
    | ConnAckPolled
    | OtherPolled
    | PollError
    | BackoffOver
    | BackoffShutdown
    | StatesChanged
    | StatesClosed
    | DrainOver
    | Killed

  /** Supervisor code that may hand a request to the client. */
  datatype Act =
    | RequestFresh
    | EventPolled
    | PublishWoken
    | EndTurn
    | StartShutdown
    | DrainEvent

  /** Transport and broker. */
  datatype Carry =
    | Write(packetId: PacketId)
    | ReceiveAck
    | Accept
    | Process
    | CloseSession

  /** Scheduler, worker and the shutdown signal. */
  datatype Daemon =
    | SchedulerStart
    | SchedulerTick
    | SchedulerRequest
    | SchedulerStop
    | WorkerWake
    | WorkerRead
    | WorkerBegin
    | WorkerCollect(ok: bool)
    | WorkerStore
    | WorkerClear
    | WorkerEnd
    | SignalShutdown

  datatype Step = Wakes(wake: Wake) | Acts(act: Act) | Carries(carry: Carry) | Runs(daemon: Daemon)

  function Actions(packets: seq<Packet>): (actions: seq<Action>) {
    seq(|packets|, i requires 0 <= i < |packets| => packets[i].action)
  }

  /** What the broker retains once a session has got to this stage. */
  ghost predicate StoreOk(stage: Stage, availability: Availability, discovered: bool) {
    match stage
    case Fresh => !availability.RetainedOnline?
    case Announced => !availability.RetainedOnline? && discovered
    case Live => availability.RetainedOnline? && discovered
    case Withdrawn => availability.RetainedOffline?
    case Closed | Broken => false
  }

  /** A broker that has served only orderly sessions of this client, the last of which may still be live. */
  ghost predicate BrokerOk(b: Broker) {
    && b.session <= b.connections
    && (b.session == 0 ==> b.wire == [] && b.processed == [] && !b.availability.RetainedOnline?)
    && !StageAfter(b.processed + Actions(b.wire)).Broken?
    && (b.session != 0 ==> StoreOk(StageAfter(b.processed), b.availability, b.discovered))
  }

  /** A new process; the broker is as any earlier processes of the service have left it. */
  ghost predicate Init(s: Sys) {
    && s.pc.Head?
    && s.core == INITIAL_CORE
    && s.link == NO_LINK
    && BrokerOk(s.broker)
    && s.scheduler.NotStarted? && s.worker.Idle? && s.workerSeen == 0 && s.collected == []
    && !s.shutdown
  }

  predicate Busy(worker: Worker) {
    worker.Collecting? || worker.Collected? || worker.Stored? || worker.Failing?
  }

  predicate WorkerGone(worker: Worker) {
    worker.Dead? || worker.Finished?
  }

  predicate IdFree(unacked: seq<Packet>, packetId: PacketId) {
    packetId != 0 && forall k :: 0 <= k < |unacked| ==> unacked[k].packetId != packetId
  }

  predicate CanWake(s: Sys, wake: Wake) {
    match wake
    case ConnAckPolled => s.pc.Head? && s.link.conn == 0 && s.link.offered != 0
    case OtherPolled => s.pc.Head? || s.pc.Draining?
    case PollError => s.pc.Head?
    case BackoffOver => s.pc.Backoff?
    case BackoffShutdown => s.pc.Backoff? && s.shutdown
    case StatesChanged => s.pc.Head? && s.core.machine.AcceptsState() && s.core.seen != s.core.states.version
    case StatesClosed =>
      s.pc.Head? && s.core.machine.AcceptsState() && s.core.seen == s.core.states.version && WorkerGone(s.worker)
    case DrainOver => s.pc.Draining?
    case Killed => !s.pc.Exited? && !s.pc.Failed?
  }

  predicate CanAct(s: Sys, act: Act) {
    match act
    case RequestFresh => s.pc.Greeting?
    case EventPolled => s.pc.Head? && s.link.events != []
    case PublishWoken => s.pc.Waking?
    case EndTurn => s.pc.Settling?
    case StartShutdown => s.pc.Head? && s.shutdown
    case DrainEvent => s.pc.Draining? && s.link.events != []
  }

  predicate CanCarry(s: Sys, carry: Carry) {
    match carry
    case Write(packetId) =>
      && s.link.conn != 0 && s.core.queue != []
      && if AtLeastOnce(s.core.queue[0]) then
           |s.link.unacked| < MAX_INFLIGHT && IdFree(s.link.unacked, packetId)
         else packetId == 0
    case ReceiveAck => s.link.conn != 0 && s.link.acks != [] && s.link.unacked != []
    case Accept => true
    case Process => s.broker.session != 0 && s.broker.wire != []
    case CloseSession => s.broker.session != 0
  }

  predicate CanRun(s: Sys, daemon: Daemon) {
    match daemon
    case SchedulerStart => s.scheduler.NotStarted?
    case SchedulerTick => s.scheduler.Waiting?
    case SchedulerRequest => s.scheduler.Decided?
    case SchedulerStop => s.scheduler.Waiting? && s.shutdown
    case WorkerWake => s.worker.Idle? && s.workerSeen != s.core.requests.version
    case WorkerRead => s.worker.Woken?
    case WorkerBegin => s.worker.Chosen?
    case WorkerCollect(_) => s.worker.Collecting?
    case WorkerStore => s.worker.Collected?
    case WorkerClear => s.worker.Stored? || s.worker.Failing?
    case WorkerEnd =>
      && s.worker.Idle? && s.workerSeen == s.core.requests.version
      && s.scheduler.Halted? && (s.pc.Exited? || s.pc.Failed?)
    case SignalShutdown => !s.shutdown
  }

  predicate Enabled(s: Sys, step: Step) {
    match step
    case Wakes(wake) => CanWake(s, wake)
    case Acts(act) => CanAct(s, act)
    case Carries(carry) => CanCarry(s, carry)
    case Runs(daemon) => CanRun(s, daemon)
  }

  /** The supervisor is gone: its socket closes and nothing it had queued is sent. */
  function Leave(s: Sys, pc: Pc): (s': Sys) {
    s.(pc := pc, link := NO_LINK, core := s.core.(queue := []))
  }

  function Continue(s: Sys, r: Option<Core>, pc: Pc): (s': Sys) {
    match r
    case None => Leave(s, Failed)
    case Some(core) => s.(pc := pc, core := core)
  }

  /** Takes the oldest event; a polled acknowledgement enters the history. */
  function TakeEvent(link: Link): (link': Link)
    requires link.events != []
  {
    var event := link.events[0];
    link.(events := link.events[1..],
          acked := if event.PubAck? then link.acked + [event.action] else link.acked)
  }

  function EventOf(packet: Packet): (event: Event) {
    if packet.action.Disconnect? then OutgoingDisconnect else OutgoingPublish(packet.action, packet.packetId)
  }

  /** Ends the live session, if any, without a DISCONNECT: the Will replaces the retained availability. */
  function PublishWill(b: Broker): (b': Broker) {
    if b.session == 0 then b
    else b.(session := 0, wire := [], processed := [], availability := RetainedOffline)
  }

  /** What processing one packet does to the broker. */
  function ProcessPacket(b: Broker): (b': Broker)
    requires b.wire != []
  {
    var action := b.wire[0].action;
    var b' := b.(wire := b.wire[1..], processed := b.processed + [action]);
    match action
    case PublishDiscovery => b'.(discovered := true)
    case PublishOnline => b'.(availability := RetainedOnline)
    case PublishOffline => b'.(availability := RetainedOffline)
    case PublishState => b'
    case Disconnect => b'.(session := 0, wire := [], processed := [])
  }

  function AfterWake(s: Sys, wake: Wake): (s': Sys)
    requires CanWake(s, wake)
  {
    match wake
    case ConnAckPolled =>
      s.(pc := Greeting, core := Acknowledge(s.core), link := NO_LINK.(conn := s.link.offered))
    case OtherPolled => if s.pc.Head? then s.(pc := Settling) else s
    case PollError => s.(pc := Backoff, core := LoseConnection(s.core), link := NO_LINK)
    case BackoffOver => s.(pc := Settling)
    case BackoffShutdown => Leave(s.(core := s.core.(status := Status.Stopped)), Exited)
    case StatesChanged => s.(pc := Waking, core := s.core.(seen := s.core.states.version))
    case StatesClosed => s.(pc := Settling)
    case DrainOver => Leave(s.(core := s.core.(status := Status.Stopped)), Exited)
    case Killed => Leave(s, Exited)
  }

  function AfterAct(s: Sys, act: Act): (s': Sys)
    requires CanAct(s, act)
  {
    match act
    case RequestFresh => Continue(s, StartBootstrap(s.core), Head)
    case EventPolled =>
      Continue(s.(link := TakeEvent(s.link)), HandleEvent(s.core, s.link.events[0]), Settling)
    case PublishWoken => Continue(s, PublishCurrentState(s.core), Settling)
    case EndTurn => Continue(s, Settle(s.core), Head)
    case StartShutdown =>
      var (r, awaiting) := BeginShutdown(s.core);
      if awaiting || r.None? then Continue(s, r, Draining) else Leave(s.(core := r.value), Exited)
    case DrainEvent =>
      var event := s.link.events[0];
      var s1 := Continue(s.(link := TakeEvent(s.link)), HandleEvent(s.core, event), Draining);
      if s1.pc.Draining? && (event.OutgoingDisconnect? || s1.core.machine.phase.Stopped?) then
        Leave(s1.(core := s1.core.(status := Status.Stopped)), Exited)
      else s1
  }

  function AfterCarry(s: Sys, carry: Carry): (s': Sys)
    requires CanCarry(s, carry)
  {
    match carry
    case Write(packetId) =>
      var action := s.core.queue[0];
      var packet := Packet(action, packetId);
      s.(core := s.core.(queue := s.core.queue[1..]),
         link := s.link.(
           events := s.link.events + [EventOf(packet)],
           unacked := if AtLeastOnce(action) then s.link.unacked + [packet] else s.link.unacked),
         broker := if s.broker.session == s.link.conn then s.broker.(wire := s.broker.wire + [packet]) else s.broker)
    case ReceiveAck =>
      var packet := s.link.acks[0];
      s.(link := s.link.(
           acks := s.link.acks[1..],
           unacked := s.link.unacked[1..],
           events := s.link.events + [PubAck(packet.action, packet.packetId)]))
    case Accept =>
      var b := PublishWill(s.broker);
      var number := b.connections + 1;
      s.(broker := b.(session := number, connections := number),
         link := if s.link.conn == 0 then s.link.(offered := number) else s.link)
    case Process =>
      var packet := s.broker.wire[0];
      s.(broker := ProcessPacket(s.broker),
         link := if s.broker.session == s.link.conn && AtLeastOnce(packet.action) then
           s.link.(acks := s.link.acks + [packet], settled := s.link.settled + [packet.action])
         else s.link)
    case CloseSession => s.(broker := PublishWill(s.broker))
  }

  function AfterRun(s: Sys, daemon: Daemon): (s': Sys)
    requires CanRun(s, daemon)
  {
    match daemon
    case SchedulerStart =>
      if s.shutdown then s.(scheduler := Halted)
      else s.(scheduler := Waiting, core := s.core.(requests := Requested(s.core.requests)))
    case SchedulerTick => if Busy(s.worker) then s else s.(scheduler := Decided)
    case SchedulerRequest => s.(scheduler := Waiting, core := s.core.(requests := Requested(s.core.requests)))
    case SchedulerStop => s.(scheduler := Halted)
    case WorkerWake => s.(worker := Woken, workerSeen := s.core.requests.version)
    case WorkerRead =>
      var id := s.core.requests.value;
      s.(workerSeen := s.core.requests.version, worker := if id == 0 then Idle else Chosen(id))
    case WorkerBegin => s.(worker := Collecting(s.worker.id, s.core.epoch))
    case WorkerCollect(ok) =>
      s.(worker := if ok then Collected(s.worker.id, s.worker.begunIn) else Failing)
    case WorkerStore =>
      s.(worker := Stored,
         collected := s.collected + [s.worker.id],
         core := s.core.(states := s.core.states.Replace(Some(Message(s.worker.id, s.worker.begunIn)))))
    case WorkerClear => s.(worker := if s.worker.Stored? then Idle else Dead)
    case WorkerEnd => s.(worker := Worker.Finished)
    case SignalShutdown => s.(shutdown := true)
  }

  function Apply(s: Sys, step: Step): (s': Sys)
    requires Enabled(s, step)
  {
    match step
    case Wakes(wake) => AfterWake(s, wake)
    case Acts(act) => AfterAct(s, act)
    case Carries(carry) => AfterCarry(s, carry)
    case Runs(daemon) => AfterRun(s, daemon)
  }

  /** One step leads from `s` to `s'`. */
  ghost predicate Steps(s: Sys, step: Step, s': Sys) {
    Enabled(s, step) && s' == Apply(s, step)
  }

  ghost predicate ReachableBy(s: Sys, steps: seq<Step>)
    decreases |steps|
  {
    if steps == [] then Init(s)
    else
      var earlier, last := steps[..|steps| - 1], steps[|steps| - 1];
      exists before :: ReachableBy(before, earlier) && Steps(before, last, s)
  }

  /** Some run of the system ends in `s`. */
  ghost predicate Reachable(s: Sys) {
    exists steps :: ReachableBy(s, steps)
  }

  /** The given steps can be taken one after the other from `s`. */
  ghost predicate CanTake(s: Sys, steps: seq<Step>)
    decreases |steps|
  {
    steps == [] || (Enabled(s, steps[0]) && CanTake(Apply(s, steps[0]), steps[1..]))
  }

  ghost function After(s: Sys, steps: seq<Step>): (s': Sys)
    requires CanTake(s, steps)
    decreases |steps|
  {
    if steps == [] then s else After(Apply(s, steps[0]), steps[1..])
  }
}
