/** What every reachable state of the system satisfies, part by part. */
module Invariants {
  import opened Wrappers
  import opened Bootstrap
  import opened Client
  import opened Protocol
  import opened System

  // ---- projections of the queues

  function OutOf(event: Event): (actions: seq<Action>) {
    match event
    case OutgoingPublish(action, _) => [action]
    case OutgoingDisconnect => [Disconnect]
    case _ => []
  }

  function AckOf(event: Event): (actions: seq<Action>) {
    if event.PubAck? then [event.action] else []
  }

  /** Actions whose outgoing event the supervisor has yet to poll. */
  function Outs(events: seq<Event>): (actions: seq<Action>) {
    if events == [] then [] else OutOf(events[0]) + Outs(events[1..])
  }

  /** Actions whose acknowledgement the supervisor has yet to poll. */
  function AckOuts(events: seq<Event>): (actions: seq<Action>) {
    if events == [] then [] else AckOf(events[0]) + AckOuts(events[1..])
  }

  function ReliableOf(action: Action): (reliable: seq<Action>) {
    if AtLeastOnce(action) then [action] else []
  }

  function Reliable(actions: seq<Action>): (reliable: seq<Action>)
    ensures |reliable| <= |actions|
  {
    if actions == [] then [] else ReliableOf(actions[0]) + Reliable(actions[1..])
  }

  function ReliablePackets(packets: seq<Packet>): (reliable: seq<Packet>) {
    if packets == [] then []
    else (if AtLeastOnce(packets[0].action) then [packets[0]] else []) + ReliablePackets(packets[1..])
  }

  lemma {:induction false} OutsAppend(events: seq<Event>, event: Event)
    ensures Outs(events + [event]) == Outs(events) + OutOf(event)
    decreases |events|
  {
    if events == [] {
      assert events + [event] == [event];
    } else {
      OutsAppend(events[1..], event);
      assert (events + [event])[1..] == events[1..] + [event];
    }
  }

  lemma {:induction false} AckOutsAppend(events: seq<Event>, event: Event)
    ensures AckOuts(events + [event]) == AckOuts(events) + AckOf(event)
    decreases |events|
  {
    if events == [] {
      assert events + [event] == [event];
    } else {
      AckOutsAppend(events[1..], event);
      assert (events + [event])[1..] == events[1..] + [event];
    }
  }

  lemma {:induction false} OutsMember(events: seq<Event>, i: nat)
    requires i < |events|
    ensures events[i].OutgoingPublish? ==> events[i].action in Outs(events)
    ensures events[i].PubAck? ==> events[i].action in AckOuts(events)
    decreases |events|
  {
    if i > 0 {
      assert events[1..][i - 1] == events[i];
      OutsMember(events[1..], i - 1);
    }
  }

  lemma {:induction false} NotInOuts(events: seq<Event>, action: Action)
    requires forall i :: 0 <= i < |events| && events[i].OutgoingPublish? ==> events[i].action != action
    requires !action.Disconnect?
    ensures action !in Outs(events)
    decreases |events|
  {
    if events != [] {
      forall i | 0 <= i < |events[1..]| && events[1..][i].OutgoingPublish?
        ensures events[1..][i].action != action
      {
        assert events[1..][i] == events[i + 1];
      }
      NotInOuts(events[1..], action);
    }
  }

  lemma {:induction false} ReliableMembers(actions: seq<Action>)
    ensures forall action :: action in actions && AtLeastOnce(action) ==> action in Reliable(actions)
    ensures forall action :: action in Reliable(actions) ==> action in actions && AtLeastOnce(action)
    decreases |actions|
  {
    if actions != [] {
      ReliableMembers(actions[1..]);
      assert actions == [actions[0]] + actions[1..];
    }
  }

  lemma {:induction false} ReliableAppend(actions: seq<Action>, action: Action)
    ensures Reliable(actions + [action]) == Reliable(actions) + ReliableOf(action)
    decreases |actions|
  {
    if actions == [] {
      assert actions + [action] == [action];
    } else {
      ReliableAppend(actions[1..], action);
      assert (actions + [action])[1..] == actions[1..] + [action];
    }
  }

  lemma {:induction false} ReliablePacketsAppend(packets: seq<Packet>, packet: Packet)
    ensures ReliablePackets(packets + [packet])
         == ReliablePackets(packets) + if AtLeastOnce(packet.action) then [packet] else []
    decreases |packets|
  {
    if packets == [] {
      assert packets + [packet] == [packet];
    } else {
      ReliablePacketsAppend(packets[1..], packet);
      assert (packets + [packet])[1..] == packets[1..] + [packet];
    }
  }

  // ---- control state and reported status

  /** The status every phase should show. */
  function StatusFor(m: Machine): (status: Status) {
    match m.phase
    case Disconnected => Status.Disconnected
    case Stopped => Status.Stopped
    case Online => Status.Online
    case StateQueued => if m.bootstrapStateQueued then Bootstrapping else Status.Online
    case ShutdownAwaitOfflineOutgoing(_) | ShutdownAwaitOfflineAck(_) | DisconnectQueued => Status.ShuttingDown
    case _ => Bootstrapping
  }

  ghost predicate ControlOk(pc: Pc, m: Machine, status: Status, conn: nat, queue: seq<Action>) {
    && !pc.Failed?
    && (m.becameOnline ==> (pc.Settling? || pc.Exited?) && m.phase.Online?)
    && (conn == 0 ==> queue == [])
    && match pc
       case Head | Waking | Settling =>
         && (conn == 0 <==> m.phase.Disconnected?)
         && !Leaving(m.phase) && !m.phase.Stopped?
         && (m.bootstrapStateQueued ==> m.phase.StateQueued?)
         && status == (if m.becameOnline then Bootstrapping else StatusFor(m))
         && (pc.Waking? ==> m.AcceptsState())
       case Greeting => conn != 0 && m.phase.Disconnected? && queue == [] && !m.bootstrapStateQueued
       case Backoff => conn == 0 && m.phase.Disconnected? && !m.bootstrapStateQueued && status.Disconnected?
       case Draining => conn != 0 && Leaving(m.phase) && status.ShuttingDown?
       case Exited => conn == 0
       case Failed => false
  }

  // ---- the client's pipeline

  predicate Just(actions: seq<Action>, action: Action) {
    |actions| == 1 && actions[0] == action
  }

  predicate Pair(actions: seq<Action>, first: Action, second: Action) {
    |actions| == 2 && actions[0] == first && actions[1] == second
  }

  /** Publishes whose outgoing event is still to come: queued ones and written ones. */
  ghost predicate PipeOk(phase: Phase, pipe: seq<Action>) {
    match phase
    case DiscoveryQueued => Just(pipe, PublishDiscovery)
    case OnlineQueued => Just(pipe, PublishOnline)
    case StateQueued => Just(pipe, PublishState)
    case ShutdownAwaitOfflineOutgoing(skip) =>
      if skip then
        |pipe| == 2 && pipe[1] == PublishOffline && !pipe[0].PublishOffline? && !pipe[0].Disconnect?
      else Just(pipe, PublishOffline)
    case DisconnectQueued => Just(pipe, Disconnect)
    case _ => |pipe| == 0
  }

  /** QoS 1 publishes issued and not yet acknowledged to the supervisor, oldest first. */
  ghost predicate AwaitedOk(phase: Phase, pipe: seq<Action>, awaited: seq<Action>) {
    match phase
    case DiscoveryQueued | DiscoveryAwaitAck(_) => Just(awaited, PublishDiscovery)
    case OnlineQueued | OnlineAwaitAck(_) => Just(awaited, PublishOnline)
    case ShutdownAwaitOfflineOutgoing(skip) =>
      if skip then
        |pipe| == 2
        && if AtLeastOnce(pipe[0]) then Pair(awaited, pipe[0], PublishOffline) else Just(awaited, PublishOffline)
      else AwaitsOffline(awaited)
    case ShutdownAwaitOfflineAck(_) => AwaitsOffline(awaited)
    case _ => |awaited| == 0
  }

  /** The offline publish is awaited, after at most one publish from before the shutdown. */
  ghost predicate AwaitsOffline(awaited: seq<Action>) {
    || Just(awaited, PublishOffline)
    || Pair(awaited, PublishDiscovery, PublishOffline)
    || Pair(awaited, PublishOnline, PublishOffline)
  }

  function StageOf(phase: Phase): (stage: Stage) {
    match phase
    case Disconnected => Fresh
    case DiscoveryQueued | DiscoveryAwaitAck(_) => Announced
    case OnlineQueued | OnlineAwaitAck(_) | AwaitFreshState | StateQueued | Online => Live
    case ShutdownAwaitOfflineOutgoing(_) | ShutdownAwaitOfflineAck(_) => Withdrawn
    case DisconnectQueued | Stopped => Closed
  }

  /** The publish whose acknowledgement the phase waits for. */
  function Expected(phase: Phase): (packet: Option<Packet>) {
    match phase
    case DiscoveryAwaitAck(packetId) => Some(Packet(PublishDiscovery, packetId))
    case OnlineAwaitAck(packetId) => Some(Packet(PublishOnline, packetId))
    case ShutdownAwaitOfflineAck(packetId) => Some(Packet(PublishOffline, packetId))
    case _ => None
  }

  /** Two publishes carry the same identifier exactly when they are the same publish. */
  predicate Tells(action: Action, packetId: PacketId, other: Action, otherId: PacketId) {
    action == other <==> packetId == otherId
  }

  /** Outgoing events whose packet identifier the machine will remember. */
  predicate Armed(phase: Phase, event: Event) {
    && event.OutgoingPublish? && AtLeastOnce(event.action)
    && (phase.ShutdownAwaitOfflineOutgoing? ==> event.action.PublishOffline?)
  }

  ghost predicate EventsOk(events: seq<Event>) {
    forall i :: 0 <= i < |events| ==> EventOk(events[i])
  }

  predicate EventOk(event: Event) {
    && !event.Other?
    && (event.OutgoingPublish? ==> (event.packetId == 0 <==> !AtLeastOnce(event.action)) && !event.action.Disconnect?)
    && (event.PubAck? ==> AtLeastOnce(event.action))
  }

  /** A publish is written before it is acknowledged. */
  ghost predicate WrittenFirst(events: seq<Event>) {
    forall i, j :: 0 <= i < j < |events| && events[i].PubAck? && events[j].OutgoingPublish?
      ==> events[i].action != events[j].action
  }

  ghost predicate UnackedOk(unacked: seq<Packet>) {
    && (forall k :: 0 <= k < |unacked| ==> AtLeastOnce(unacked[k].action) && unacked[k].packetId != 0)
    && (forall k, l :: 0 <= k < l < |unacked| ==> unacked[k].packetId != unacked[l].packetId)
  }

  /** Everything acknowledged from event `from` on is told apart from the given publish. */
  ghost predicate TellsAll(action: Action, packetId: PacketId, events: seq<Event>, from: nat, unacked: seq<Packet>) {
    && (forall j :: from <= j < |events| && events[j].PubAck?
          ==> Tells(action, packetId, events[j].action, events[j].packetId))
    && (forall k :: 0 <= k < |unacked| ==> Tells(action, packetId, unacked[k].action, unacked[k].packetId))
  }

  ghost predicate ArmedOk(phase: Phase, events: seq<Event>, unacked: seq<Packet>) {
    forall i :: 0 <= i < |events| && Armed(phase, events[i])
      ==> TellsAll(events[i].action, events[i].packetId, events, i + 1, unacked)
  }

  ghost predicate ExpectedOk(phase: Phase, events: seq<Event>, unacked: seq<Packet>) {
    Expected(phase).Some? ==>
      TellsAll(Expected(phase).value.action, Expected(phase).value.packetId, events, 0, unacked)
  }

  function Pipe(events: seq<Event>, queue: seq<Action>): (pipe: seq<Action>) {
    Outs(events) + queue
  }

  function Awaited(events: seq<Event>, unacked: seq<Packet>, queue: seq<Action>): (awaited: seq<Action>) {
    AckOuts(events) + Actions(unacked) + Reliable(queue)
  }

  /** How many publishes of which kind are where. */
  ghost predicate CountsOk(phase: Phase, pipe: seq<Action>, awaited: seq<Action>, issued: seq<Action>,
                           acked: seq<Action>) {
    && PipeOk(phase, pipe)
    && AwaitedOk(phase, pipe, awaited)
    && StageAfter(issued) == StageOf(phase)
    && Reliable(issued) == acked + awaited
    && (PublishState in issued ==> PublishOnline in acked)
  }

  /** Which identifiers belong together. */
  ghost predicate TagsOk(phase: Phase, events: seq<Event>, unacked: seq<Packet>) {
    && EventsOk(events)
    && WrittenFirst(events)
    && UnackedOk(unacked)
    && ArmedOk(phase, events, unacked)
    && ExpectedOk(phase, events, unacked)
  }

  /** Everything about a connected client, whatever the network does. */
  ghost predicate LinkOk(phase: Phase, queue: seq<Action>, issued: seq<Action>, link: Link) {
    && CountsOk(phase, Pipe(link.events, queue), Awaited(link.events, link.unacked, queue), issued, link.acked)
    && TagsOk(phase, link.events, link.unacked)
  }

  // ---- client and broker

  /** The link between the connected client and the broker; `linked` when the live session is the client's. */
  ghost predicate NetOk(queue: seq<Action>, issued: seq<Action>, link: Link, b: Broker) {
    && link.conn <= b.connections && link.offered <= b.connections
    && (link.conn != 0 ==>
          && link.offered == 0
          && link.settled == link.acked + AckOuts(link.events) + Actions(link.acks)
          && link.acks <= link.unacked)
    && (link.conn != 0 && link.conn == b.session ==>
          && issued == b.processed + Actions(b.wire) + queue
          && link.unacked == link.acks + ReliablePackets(b.wire))
    && (link.conn == 0 ==> link.events == [] && link.unacked == [])
    && (link.conn == 0 && link.offered != 0 && link.offered == b.session ==> b.processed == [] && b.wire == [])
  }

  // ---- collection

  predicate Bootstrapped(phase: Phase) {
    phase.DiscoveryQueued? || phase.DiscoveryAwaitAck? || phase.OnlineQueued? || phase.OnlineAwaitAck?
    || phase.AwaitFreshState?
  }

  predicate Streaming(phase: Phase) {
    phase.StateQueued? || phase.Online?
  }

  /** Counters and versions; holds also when the request counter has saturated. */
  ghost predicate SlotsOk(s: Sys) {
    && s.core.requests.value == Min(s.core.requests.version, U64_MAX)
    && s.workerSeen <= s.core.requests.version
    && s.core.seen <= s.core.states.version == |s.collected|
    && (s.collected == [] <==> s.core.states.value.None?)
    && (s.collected != [] ==> s.core.states.value.value.requestId == Last(s.collected))
    && (s.worker.Woken? ==> s.workerSeen != 0)
  }

  /** Where the worker is between the last stored state and the last request it has seen. */
  ghost predicate WorkerOk(worker: Worker, workerSeen: nat, last: nat) {
    match worker
    case Idle | Stored | Finished => last == workerSeen
    case Woken => last < workerSeen
    case Chosen(id) => last < id == workerSeen
    case Collecting(id, _) => last < id == workerSeen
    case Collected(id, _) => last < id == workerSeen
    case Failing | Dead => last <= workerSeen
  }

  function PublishedIds(published: seq<Published>): (ids: seq<u64>) {
    seq(|published|, i requires 0 <= i < |published| => published[i].message.requestId)
  }

  /** Identifiers below saturation. */
  ghost predicate IdsOk(s: Sys) {
    && s.core.requests.value == s.core.requests.version
    && Increasing(s.collected)
    && (forall i :: 0 <= i < |s.collected| ==> 0 < s.collected[i])
    && WorkerOk(s.worker, s.workerSeen, Last(s.collected))
    && s.core.machine.required <= s.core.requests.value
    && s.core.machine.lastState <= Last(s.collected)
    && Increasing(PublishedIds(s.core.published))
    && s.core.machine.lastState == Last(PublishedIds(s.core.published))
    && (Bootstrapped(s.core.machine.phase) ==> s.core.machine.lastState < s.core.machine.required)
    && (Streaming(s.core.machine.phase) ==> s.core.machine.required <= s.core.machine.lastState)
    && (0 < s.core.seen <= |s.collected| && (s.pc.Head? || s.pc.Settling?) ==>
          && (Bootstrapped(s.core.machine.phase) ==> s.collected[s.core.seen - 1] < s.core.machine.required)
          && (Streaming(s.core.machine.phase) ==> s.collected[s.core.seen - 1] <= s.core.machine.lastState))
  }

  /** A state good enough for this connection was collected on this connection. */
  ghost predicate FreshOk(s: Sys) {
    && (Bootstrapped(s.core.machine.phase) || Streaming(s.core.machine.phase) ==>
          && (s.core.states.value.Some? && s.core.states.value.value.requestId >= s.core.machine.required ==>
                s.core.states.value.value.begunIn == s.core.epoch)
          && (s.worker.Collecting? && s.worker.id >= s.core.machine.required ==> s.worker.begunIn == s.core.epoch)
          && (s.worker.Collected? && s.worker.id >= s.core.machine.required ==> s.worker.begunIn == s.core.epoch))
    && (forall i :: 0 <= i < |s.core.published| ==>
          s.core.published[i].message.begunIn == s.core.published[i].connection)
  }

  ghost predicate BelowSaturation(s: Sys) {
    s.core.requests.value < U64_MAX
  }

  // ---- the whole

  ghost predicate Control(s: Sys) {
    ControlOk(s.pc, s.core.machine, s.core.status, s.link.conn, s.core.queue)
  }

  ghost predicate Linked(s: Sys) {
    s.link.conn != 0 ==> LinkOk(s.core.machine.phase, s.core.queue, s.core.issued, s.link)
  }

  ghost predicate Agreed(s: Sys) {
    NetOk(s.core.queue, s.core.issued, s.link, s.broker)
  }

  ghost predicate Invariant(s: Sys) {
    && Control(s) && Linked(s) && BrokerOk(s.broker) && Agreed(s) && SlotsOk(s)
    && (BelowSaturation(s) ==> IdsOk(s) && FreshOk(s))
  }
}
