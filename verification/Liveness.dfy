/** From every reachable state the work in hand can be finished: there is always a run that completes it. */
module Liveness {
  import opened Bootstrap
  import opened Client
  import opened Protocol
  import opened System
  import opened Invariants
  import opened Preservation
  import opened Reachability
  import opened Theorems
  import opened Freshness

  lemma {:induction false} Concatenate(s: Sys, first: seq<Step>, second: seq<Step>)
    requires CanTake(s, first) && CanTake(After(s, first), second)
    ensures CanTake(s, first + second) && After(s, first + second) == After(After(s, first), second)
    decreases |first|
  {
    hide Enabled, Apply;
    if first == [] {
      assert first + second == second;
    } else {
      Concatenate(Apply(s, first[0]), first[1..], second);
      assert (first + second)[1..] == first[1..] + second;
    }
  }

  lemma {:induction false} InvariantAfter(s: Sys, steps: seq<Step>)
    requires Invariant(s) && CanTake(s, steps)
    ensures Invariant(After(s, steps))
    decreases |steps|
  {
    hide Enabled, Apply, Invariant;
    if steps != [] {
      InvariantKept(s, steps[0]);
      InvariantAfter(Apply(s, steps[0]), steps[1..]);
    }
  }

  // ---- the worker catches up

  predicate WorkerAble(worker: Worker) {
    !worker.Failing? && !worker.Dead? && !worker.Finished?
  }

  /** How many worker steps are left at most. */
  function WorkLeft(s: Sys): (left: nat) {
    (if s.workerSeen == s.core.requests.version then 0 else 7) +
    match s.worker
    case Woken => 5
    case Chosen(_) => 4
    case Collecting(_, _) => 3
    case Collected(_, _) => 2
    case Stored => 1
    case _ => 0
  }

  function WorkerStep(s: Sys): (daemon: Daemon) {
    match s.worker
    case Woken => WorkerRead
    case Chosen(_) => WorkerBegin
    case Collecting(_, _) => WorkerCollect(true)
    case Collected(_, _) => WorkerStore
    case Stored => WorkerClear
    case _ => WorkerWake
  }

  /** Only the worker and the state slot differ. */
  ghost predicate SameButWorker(s: Sys, t: Sys) {
    t == s.(worker := t.worker, workerSeen := t.workerSeen, collected := t.collected,
            core := s.core.(states := t.core.states))
  }

  lemma WorkerMoves(s: Sys)
    requires SlotsOk(s) && WorkerAble(s.worker)
    requires !(s.worker.Idle? && s.workerSeen == s.core.requests.version)
    ensures CanRun(s, WorkerStep(s))
    ensures var t := AfterRun(s, WorkerStep(s));
      SameButWorker(s, t) && WorkerAble(t.worker) && WorkLeft(t) < WorkLeft(s)
  {
  }

  lemma SlotsOfInvariant(s: Sys)
    requires Invariant(s)
    ensures SlotsOk(s)
  {
  }

  lemma {:induction false} WorkerCatchesUp(s: Sys) returns (steps: seq<Step>)
    requires Invariant(s) && WorkerAble(s.worker)
    ensures CanTake(s, steps)
    ensures var t := After(s, steps);
      SameButWorker(s, t) && t.worker.Idle? && t.workerSeen == t.core.requests.version
    decreases WorkLeft(s)
  {
    hide Invariant, AfterRun, CanRun;
    if s.worker.Idle? && s.workerSeen == s.core.requests.version {
      steps := [];
    } else {
      SlotsOfInvariant(s);
      WorkerMoves(s);
      var step := Runs(WorkerStep(s));
      InvariantKept(s, step);
      var rest := WorkerCatchesUp(Apply(s, step));
      steps := [step] + rest;
    }
  }

  // ---- the bootstrap completes

  /** The client's session is the live one and its bootstrap is under way. */
  ghost predicate Delivering(s: Sys) {
    && (s.pc.Head? || s.pc.Settling?)
    && s.link.conn != 0 && s.link.conn == s.broker.session
    && Bootstrapped(s.core.machine.phase)
  }

  /**
   An upper bound on the delivery steps left: requests, packets, acknowledgements, events,
   and one action still to come.
   */
  function DeliveryLeft(s: Sys): (left: nat) {
    PhaseWeight(s.core.machine.phase)
    + 16 * |s.core.queue| + 8 * |s.broker.wire| + 4 * |s.link.acks| + 2 * |s.link.events|
    + (if s.pc.Settling? then 1 else 0)
  }

  /** Everything the delivery of publishes leaves alone. */
  ghost predicate SameButDelivery(s: Sys, t: Sys) {
    && t.core == s.core.(machine := t.core.machine, status := t.core.status, queue := t.core.queue,
                        issued := t.core.issued)
    && t.core.machine.required == s.core.machine.required && t.core.machine.lastState == s.core.machine.lastState
    && t == s.(pc := t.pc, core := t.core, link := t.link, broker := t.broker)
    && t.link.conn == s.link.conn
  }

  /** Once DISCONNECT has been issued the stage is closed for good. */
  lemma {:induction false} DisconnectCloses(before: seq<Action>, after: seq<Action>)
    ensures StageAfter(before + [Disconnect] + after).Closed? || StageAfter(before + [Disconnect] + after).Broken?
    ensures !StageAfter(before + [Disconnect] + after).Broken? ==> after == []
    decreases |after|
  {
    if after == [] {
      assert before + [Disconnect] + after == before + [Disconnect];
      StageAfterNext(before, Disconnect);
    } else {
      var shorter, last := after[..|after| - 1], after[|after| - 1];
      assert before + [Disconnect] + after == (before + [Disconnect] + shorter) + [last];
      StageAfterNext(before + [Disconnect] + shorter, last);
      DisconnectCloses(before, shorter);
    }
  }

  /** A DISCONNECT on the wire of the client's session means the client has issued it, and nothing after it. */
  lemma DisconnectOnWire(s: Sys)
    requires Linked(s) && Agreed(s) && s.link.conn != 0 && s.link.conn == s.broker.session
    requires s.broker.wire != [] && s.broker.wire[0].action.Disconnect?
    ensures StageOf(s.core.machine.phase).Closed?
    ensures s.broker.wire[1..] == [] && s.core.queue == []
  {
    hide TagsOk, PipeOk, AwaitedOk, Pipe, Awaited, Reliable, ReliablePackets;
    var after := Actions(s.broker.wire[1..]) + s.core.queue;
    assert s.core.issued == s.broker.processed + [Disconnect] + after by {
      assert Actions(s.broker.wire) == [Disconnect] + Actions(s.broker.wire[1..]);
    }
    DisconnectCloses(s.broker.processed, after);
    assert |after| == |s.broker.wire[1..]| + |s.core.queue|;
  }

  lemma {:induction false} EventsCounted(events: seq<Event>)
    requires EventsOk(events)
    ensures |events| == |Outs(events)| + |AckOuts(events)|
    decreases |events|
  {
    if events != [] {
      assert EventOk(events[0]);
      forall i | 0 <= i < |events[1..]|
        ensures EventOk(events[1..][i])
      {
        assert EventOk(events[i + 1]);
      }
      EventsCounted(events[1..]);
    }
  }

  /** With nothing to poll, on the wire or on its way back, a phase that waits for anything still has it queued. */
  lemma SomethingQueued(s: Sys)
    requires Linked(s) && Agreed(s) && s.link.conn != 0 && s.link.conn == s.broker.session
    requires s.broker.wire == [] && s.link.acks == [] && s.link.events == []
    requires !PipeOk(s.core.machine.phase, []) || !AwaitedOk(s.core.machine.phase, [], [])
    ensures s.core.queue != []
  {
    hide TagsOk, PipeOk, AwaitedOk, StageAfter;
    assert s.link.unacked == [];
    assert Pipe([], []) == [] && Awaited([], [], []) == [];
  }

  function PhaseWeight(phase: Phase): (weight: nat) {
    if phase.DiscoveryQueued? || phase.DiscoveryAwaitAck? || (Leaving(phase) && !phase.DisconnectQueued?) then 20 else 0
  }

  lemma EventMoves(c: Core, event: Event)
    requires Bootstrapped(c.machine.phase) && !event.OutgoingDisconnect? && |c.queue| <= 2
    ensures var r := HandleEvent(c, event);
      && r.Some? && Bootstrapped(r.value.machine.phase)
      && r.value == c.(machine := r.value.machine, queue := r.value.queue, issued := r.value.issued)
      && r.value.machine.required == c.machine.required && r.value.machine.lastState == c.machine.lastState
      && PhaseWeight(r.value.machine.phase) + 16 * |r.value.queue| <= PhaseWeight(c.machine.phase) + 16 * |c.queue|
  {
  }

  lemma PollMoves(s: Sys)
    requires Quiet(s) && Delivering(s) && s.pc.Head? && s.link.events != []
    ensures CanAct(s, EventPolled)
    ensures var t := AfterAct(s, EventPolled);
      Delivering(t) && SameButDelivery(s, t) && DeliveryLeft(t) < DeliveryLeft(s)
  {
    hide HandleEvent, StartBootstrap, Settle, BeginShutdown, PublishCurrentState;
    EventMoves(s.core, s.link.events[0]);
  }

  lemma EndTurnMoves(s: Sys)
    requires Invariant(s) && Delivering(s) && s.pc.Settling?
    ensures CanAct(s, EndTurn)
    ensures var t := AfterAct(s, EndTurn); Delivering(t) && SameButDelivery(s, t) && DeliveryLeft(t) < DeliveryLeft(s)
  {
    hide LinkOk, NetOk, BrokerOk, SlotsOk, IdsOk, FreshOk;
  }

  lemma CarryMoves(s: Sys, carry: Carry)
    requires s.link.conn != 0 && s.link.conn == s.broker.session && CanCarry(s, carry)
    requires carry.Write? || carry.ReceiveAck? || (carry.Process? && !s.broker.wire[0].action.Disconnect?)
    ensures var t := AfterCarry(s, carry);
      && SameButDelivery(s, t) && DeliveryLeft(t) < DeliveryLeft(s)
      && t.pc == s.pc && t.core.machine == s.core.machine && t.broker.session == s.broker.session
  {
    match carry {
      case Write(_) =>
      case ReceiveAck =>
      case Process =>
      case _ =>
    }
  }

  /** While anything is queued or in flight, the transport or the broker can move. */
  lemma NetworkMoves(s: Sys) returns (carry: Carry)
    requires Linked(s) && Agreed(s) && Quiet(s) && |s.link.unacked| <= 2
    requires s.link.conn != 0 && s.link.conn == s.broker.session
    requires s.core.queue != [] || s.broker.wire != [] || s.link.acks != []
    requires s.broker.wire != [] && s.broker.wire[0].action.Disconnect? ==> !StageOf(s.core.machine.phase).Closed?
    ensures carry.Write? || carry.ReceiveAck? || carry.Process?
    ensures CanCarry(s, carry)
    ensures var t := AfterCarry(s, carry);
      && SameButDelivery(s, t) && DeliveryLeft(t) < DeliveryLeft(s)
      && t.pc == s.pc && t.core.machine == s.core.machine && t.broker.session == s.broker.session
  {
    NoEventsUnconnected(s);
    hide LinkOk, NetOk, AfterCarry, SameButDelivery, DeliveryLeft;
    if s.link.acks != [] {
      carry := ReceiveAck;
    } else if s.broker.wire != [] {
      carry := Process;
      if s.broker.wire[0].action.Disconnect? { DisconnectOnWire(s); }
    } else {
      var packetId := 0;
      if AtLeastOnce(s.core.queue[0]) { packetId := FreeId(s.link.unacked); }
      carry := Write(packetId);
    }
    CarryMoves(s, carry);
  }

  lemma DeliveryHasWork(s: Sys)
    requires Linked(s) && Agreed(s) && Delivering(s) && !s.core.machine.phase.AwaitFreshState? && s.link.events == []
    ensures s.core.queue != [] || s.broker.wire != [] || s.link.acks != []
  {
    hide LinkOk, NetOk;
    if s.broker.wire == [] && s.link.acks == [] {
      SomethingQueued(s);
    }
  }

  /** Some delivery step is enabled until a fresh state is all that is missing. */
  lemma DeliveryMoves(s: Sys) returns (step: Step)
    requires Invariant(s) && Delivering(s)
    requires !(s.pc.Head? && s.core.machine.phase.AwaitFreshState?)
    ensures match step
      case Acts(act) => act.EndTurn? || act.EventPolled?
      case Carries(carry) => carry.Write? || carry.ReceiveAck? || carry.Process?
      case _ => false
    ensures Enabled(s, step)
    ensures var t := Apply(s, step); Delivering(t) && SameButDelivery(s, t) && DeliveryLeft(t) < DeliveryLeft(s)
  {
    hide LinkOk, ControlOk, SlotsOk, IdsOk, FreshOk, NetOk, BrokerOk, AfterAct, AfterCarry, SameButDelivery,
        DeliveryLeft,
      Quiet;
    NoEventsUnconnected(s);
    QueuesAreShort(s);
    if s.pc.Settling? {
      EndTurnMoves(s);
      step := Acts(EndTurn);
    } else if s.link.events != [] {
      PollMoves(s);
      step := Acts(EventPolled);
    } else {
      DeliveryHasWork(s);
      var carry := NetworkMoves(s);
      SameConnection(s, AfterCarry(s, carry));
      step := Carries(carry);
    }
  }

  lemma SameTransitive(s: Sys, t: Sys, u: Sys)
    requires SameButDelivery(s, t) && SameButDelivery(t, u)
    ensures SameButDelivery(s, u)
  {
  }

  lemma {:induction false} BootstrapReachesWait(s: Sys) returns (steps: seq<Step>)
    requires Invariant(s) && Delivering(s)
    ensures CanTake(s, steps)
    ensures var t := After(s, steps);
      SameButDelivery(s, t) && Delivering(t) && t.pc.Head? && t.core.machine.phase.AwaitFreshState?
    decreases DeliveryLeft(s)
  {
    hide Invariant, Apply, Enabled, SameButDelivery;
    if s.pc.Head? && s.core.machine.phase.AwaitFreshState? {
      steps := [];
      assert SameButDelivery(s, s) by { SameReflexive(s); }
    } else {
      var step := DeliveryMoves(s);
      InvariantKept(s, step);
      var rest := BootstrapReachesWait(Apply(s, step));
      steps := [step] + rest;
      SameTransitive(s, Apply(s, step), After(s, steps));
    }
  }

  lemma SameReflexive(s: Sys)
    ensures SameButDelivery(s, s)
  {
  }

  lemma {:induction false} ReachableAfter(s: Sys, steps: seq<Step>)
    requires Reachable(s) && CanTake(s, steps)
    ensures Reachable(After(s, steps))
    decreases |steps|
  {
    hide Enabled, Apply;
    if steps != [] {
      var past :| ReachableBy(s, past);
      var next := Apply(s, steps[0]);
      assert (past + [steps[0]])[..|past|] == past;
      assert Steps(s, steps[0], next);
      assert ReachableBy(next, past + [steps[0]]);
      ReachableAfter(next, steps[1..]);
    }
  }

  lemma WorkerKeepsDelivering(s: Sys, t: Sys)
    requires SameButWorker(s, t) && Delivering(s)
    ensures Delivering(t) && t.pc == s.pc && t.core.machine == s.core.machine && t.core.requests == s.core.requests
    ensures t.core.published == s.core.published && t.core.epoch == s.core.epoch
  {
  }

  /**
   From every reachable state of a live session whose bootstrap is under way, below
   saturation and with a worker that has not failed, some run publishes next a
   state that was requested, collected and tagged for this very connection.
   */
  lemma BootstrapCanComplete(s: Sys) returns (steps: seq<Step>, message: Message)
    requires Reachable(s) && BelowSaturation(s) && Delivering(s) && WorkerAble(s.worker)
    ensures CanTake(s, steps)
    ensures After(s, steps).core.published == s.core.published + [Published(message, s.core.epoch)]
    ensures message.requestId >= s.core.machine.required && message.begunIn == s.core.epoch
  {
    hide Invariant, AfterWake, AfterAct, CanWake, CanAct;
    InvariantAlways(s);
    var first := BootstrapReachesWait(s);
    var t := After(s, first);
    InvariantAfter(s, first);
    assert WorkerAble(t.worker) && BelowSaturation(t);
    var second := WorkerCatchesUp(t);
    var u := After(t, second);
    WorkerKeepsDelivering(t, u);
    Concatenate(s, first, second);
    ReachableAfter(s, first + second);
    AwaitingNeverStarves(u);
    message := u.core.states.value.value;
    var third := [Wakes(Wake.StatesChanged), Acts(PublishWoken)];
    TwoSteps(u, third[0], third[1]);
    steps := first + second + third;
    Concatenate(s, first + second, third);
    ReachableAfter(s, steps);
    var v := After(s, steps);
    assert v.core.published[|s.core.published|].message == message;
    LastPublishedIsFresh(u, v);
  }

  lemma LastPublishedIsFresh(u: Sys, v: Sys)
    requires CanWake(u, Wake.StatesChanged) && CanAct(AfterWake(u, Wake.StatesChanged), PublishWoken)
    requires Reachable(v) && BelowSaturation(u) && v == AfterAct(AfterWake(u, Wake.StatesChanged), PublishWoken)
    requires v.core.published != []
    ensures var p := v.core.published[|v.core.published| - 1]; p.message.begunIn == p.connection
  {
    PublishKeepsRequests(u);
    PublishedStatesAreFresh(v);
  }

  lemma PublishKeepsRequests(u: Sys)
    requires CanWake(u, Wake.StatesChanged) && CanAct(AfterWake(u, Wake.StatesChanged), PublishWoken)
    ensures AfterAct(AfterWake(u, Wake.StatesChanged), PublishWoken).core.requests == u.core.requests
  {
  }

  // ---- the shutdown completes

  /** A graceful shutdown is waiting for the broker on the live session. */
  ghost predicate Withdrawing(s: Sys) {
    s.pc.Draining? && s.link.conn != 0 && s.link.conn == s.broker.session
  }

  /** With DISCONNECT on the wire nothing else is left: processing and polling it end the session and the supervisor. */
  lemma DisconnectEndsIt(s: Sys)
    requires Invariant(s) && Withdrawing(s)
    requires s.broker.wire != [] && s.broker.wire[0].action.Disconnect?
    ensures CanCarry(s, Process)
    ensures var t := AfterCarry(s, Process); CanAct(t, DrainEvent) && AfterAct(t, DrainEvent).pc.Exited?
    ensures var t := AfterCarry(s, Process);
      AfterAct(t, DrainEvent).broker.session == 0 && AfterAct(t, DrainEvent).broker.availability.RetainedOffline?
  {
    hide ControlOk, LinkOk, NetOk, BrokerOk, SlotsOk, IdsOk, FreshOk, HandleEvent;
    DisconnectOnWire(s);
    ClosedIsQueued(s);
    OnlyDisconnectLeft(s);
    ProcessedFirst(s.broker);
    LiveSession(s.broker);
    DisconnectStops(AfterCarry(s, Process));
  }

  /** The live session, just before DISCONNECT is processed, has "offline" retained. */
  lemma LiveSession(b: Broker)
    requires BrokerOk(b) && b.session != 0 && b.wire != []
    requires !Next(StageAfter(b.processed), b.wire[0].action).Broken? && b.wire[0].action.Disconnect?
    ensures b.availability.RetainedOffline?
  {
  }

  lemma ClosedIsQueued(s: Sys)
    requires Control(s) && s.pc.Draining? && StageOf(s.core.machine.phase).Closed?
    ensures s.core.machine.phase.DisconnectQueued?
  {
  }

  /** Polling the disconnect's own event ends the supervisor and leaves the broker alone. */
  lemma DisconnectStops(s: Sys)
    requires CanAct(s, DrainEvent) && s.link.events[0].OutgoingDisconnect?
    ensures AfterAct(s, DrainEvent).pc.Exited? && AfterAct(s, DrainEvent).broker == s.broker
  {
  }

  lemma OneDisconnect(events: seq<Event>)
    requires EventsOk(events) && |Outs(events)| == 1 && Outs(events)[0].Disconnect? && AckOuts(events) == []
    ensures |events| == 1 && events[0].OutgoingDisconnect?
  {
    EventsCounted(events);
    assert EventOk(events[0]);
    assert Outs(events) == OutOf(events[0]) + Outs(events[1..]);
  }

  lemma OnlyDisconnectLeft(s: Sys)
    requires Linked(s) && s.link.conn != 0 && s.core.machine.phase.DisconnectQueued? && s.core.queue == []
    ensures |s.link.events| == 1 && s.link.events[0].OutgoingDisconnect?
  {
    hide Outs, AckOuts, EventsOk, WrittenFirst, UnackedOk, ArmedOk, ExpectedOk;
    assert Outs(s.link.events) + [] == Outs(s.link.events);
    assert |AckOuts(s.link.events)| <= |Awaited(s.link.events, s.link.unacked, s.core.queue)|;
    OneDisconnect(s.link.events);
  }

  lemma DrainMoves(s: Sys)
    requires Control(s) && Quiet(s) && Withdrawing(s) && s.link.events != [] && !s.link.events[0].OutgoingDisconnect?
    ensures CanAct(s, DrainEvent)
    ensures var t := AfterAct(s, DrainEvent); Withdrawing(t) && DeliveryLeft(t) < DeliveryLeft(s)
  {
  }

  /** An issued DISCONNECT that the live session has not processed is on the wire or still queued. */
  lemma DisconnectIsSomewhere(s: Sys)
    requires Linked(s) && Agreed(s) && BrokerOk(s.broker) && Withdrawing(s) && s.core.machine.phase.DisconnectQueued?
    ensures s.broker.wire != [] || s.core.queue != []
  {
    hide TagsOk, PipeOk, AwaitedOk;
    assert s.broker.processed + [] + [] == s.broker.processed;
  }

  lemma WithdrawalHasWork(s: Sys)
    requires Linked(s) && Agreed(s) && BrokerOk(s.broker) && Withdrawing(s) && Quiet(s) && Leaving(s.core.machine.phase)
    requires s.link.events == [] || s.link.events[0].OutgoingDisconnect?
    ensures s.core.queue != [] || s.broker.wire != [] || s.link.acks != []
  {
    hide LinkOk, NetOk, BrokerOk;
    if s.core.machine.phase.DisconnectQueued? {
      DisconnectIsSomewhere(s);
    } else if s.broker.wire == [] && s.link.acks == [] {
      SomethingQueued(s);
    }
  }

  lemma WithdrawalMoves(s: Sys) returns (step: Step)
    requires Invariant(s) && Withdrawing(s)
    requires s.broker.wire != [] ==> !s.broker.wire[0].action.Disconnect?
    ensures Enabled(s, step)
    ensures var t := Apply(s, step); Withdrawing(t) && DeliveryLeft(t) < DeliveryLeft(s)
  {
    hide LinkOk, NetOk, SlotsOk, IdsOk, FreshOk, BrokerOk, AfterAct, AfterCarry, DeliveryLeft, SameButDelivery, Quiet;
    NoEventsUnconnected(s);
    QueuesAreShort(s);
    if s.link.events != [] && !s.link.events[0].OutgoingDisconnect? {
      DrainMoves(s);
      step := Acts(DrainEvent);
    } else {
      WithdrawalHasWork(s);
      var carry := NetworkMoves(s);
      SameConnection(s, AfterCarry(s, carry));
      step := Carries(carry);
    }
  }

  lemma SameConnection(s: Sys, t: Sys)
    requires SameButDelivery(s, t)
    ensures t.link.conn == s.link.conn
  {
  }

  lemma {:induction false} WithdrawalEnds(s: Sys) returns (steps: seq<Step>)
    requires Invariant(s) && Withdrawing(s)
    ensures CanTake(s, steps)
    ensures var t := After(s, steps);
      t.pc.Exited? && t.broker.session == 0 && t.broker.availability.RetainedOffline?
    decreases DeliveryLeft(s)
  {
    hide Invariant, AfterCarry, AfterAct, CanCarry, CanAct;
    if s.broker.wire != [] && s.broker.wire[0].action.Disconnect? {
      DisconnectEndsIt(s);
      steps := [Carries(Process), Acts(DrainEvent)];
      TwoSteps(s, Carries(Process), Acts(DrainEvent));
    } else {
      var step := WithdrawalMoves(s);
      InvariantKept(s, step);
      var rest := WithdrawalEnds(Apply(s, step));
      steps := [step] + rest;
    }
  }

  /**
   From every reachable state of a graceful shutdown on a live session, some run
   ends with "offline" retained, the session ended by DISCONNECT and the supervisor gone.
   */
  lemma ShutdownCanComplete(s: Sys) returns (steps: seq<Step>)
    requires Reachable(s) && Withdrawing(s)
    ensures CanTake(s, steps)
    ensures var t := After(s, steps);
      t.pc.Exited? && t.broker.session == 0 && t.broker.availability.RetainedOffline?
  {
    hide Invariant, Apply, Enabled;
    InvariantAlways(s);
    steps := WithdrawalEnds(s);
  }

  lemma TwoSteps(s: Sys, first: Step, second: Step)
    requires Enabled(s, first) && Enabled(Apply(s, first), second)
    ensures CanTake(s, [first, second]) && After(s, [first, second]) == Apply(Apply(s, first), second)
  {
    hide Enabled, Apply;
    var t := Apply(s, first);
    assert [first, second][1..] == [second] && [second][1..] == [];
    assert CanTake(Apply(t, second), []);
    assert CanTake(t, [second]) && After(t, [second]) == Apply(t, second);
  }

  /** A run that ends in a reachable state, from its start. */
  lemma {:induction false} RunTo(s: Sys, steps: seq<Step>) returns (start: Sys)
    requires ReachableBy(s, steps)
    ensures Init(start) && CanTake(start, steps) && After(start, steps) == s
    decreases |steps|
  {
    hide Enabled, Apply, Init;
    if steps == [] {
      start := s;
    } else {
      var earlier, last := steps[..|steps| - 1], steps[|steps| - 1];
      var before :| ReachableBy(before, earlier) && Steps(before, last, s);
      start := RunTo(before, earlier);
      assert CanTake(s, []) && [last][1..] == [];
      assert CanTake(before, [last]) && After(before, [last]) == s;
      Concatenate(start, earlier, [last]);
      assert earlier + [last] == steps;
    }
  }
}
