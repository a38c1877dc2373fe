/** Every step keeps every part of the invariant. */
module Preservation {
  import opened Watch
  import opened Bootstrap
  import opened Client
  import opened Protocol
  import opened System
  import opened Invariants
  import opened LinkPreservation

  // ---- control state

  /** What the control state needs to know about the queues. */
  ghost predicate Quiet(s: Sys) {
    && |s.core.queue| <= 2
    && (s.link.events != [] && s.link.events[0].OutgoingDisconnect? ==> s.core.machine.phase.DisconnectQueued?)
    && (s.link.events != [] ==> s.link.conn != 0)
  }

  lemma QueuesAreShort(s: Sys)
    requires Control(s) && (s.link.conn != 0 ==> LinkOk(s.core.machine.phase, s.core.queue, s.core.issued, s.link))
    requires s.link.conn == 0 ==> s.link.events == []
    ensures Quiet(s)
    ensures s.link.conn != 0 ==> |s.link.unacked| <= 2
  {
    hide TagsOk, Outs, AckOuts, Reliable;
    if s.link.conn != 0 {
      var pipe, awaited := Pipe(s.link.events, s.core.queue), Awaited(s.link.events, s.link.unacked, s.core.queue);
      PipeIsShort(s.core.machine.phase, pipe);
      AwaitedDistinct(s.core.machine.phase, pipe, awaited);
      assert |s.core.queue| <= |pipe| && |s.link.unacked| <= |awaited|;
      if s.link.events != [] && s.link.events[0].OutgoingDisconnect? {
        DisconnectHeadsPipe(s.link.events, s.core.queue);
      }
    }
  }

  lemma PipeIsShort(phase: Phase, pipe: seq<Action>)
    requires PipeOk(phase, pipe)
    ensures |pipe| <= 2
    ensures pipe != [] && pipe[0].Disconnect? ==> phase.DisconnectQueued?
  {
  }

  lemma DisconnectHeadsPipe(events: seq<Event>, queue: seq<Action>)
    requires events != [] && events[0].OutgoingDisconnect?
    ensures Pipe(events, queue) != [] && Pipe(events, queue)[0].Disconnect?
  {
  }

  lemma ControlKeptByWake(s: Sys, wake: Wake)
    requires Control(s) && Quiet(s) && CanWake(s, wake)
    ensures Control(AfterWake(s, wake))
  {
    match wake {
      case ConnAckPolled =>
      case OtherPolled =>
      case PollError =>
      case BackoffOver =>
      case BackoffShutdown =>
      case StatesChanged =>
      case StatesClosed =>
      case DrainOver =>
      case Killed =>
    }
  }

  lemma ControlKeptByAct(s: Sys, act: Act)
    requires Control(s) && Quiet(s) && CanAct(s, act)
    ensures Control(AfterAct(s, act))
  {
    hide AfterAct, ControlOk;
    match act {
      case RequestFresh => ControlKeptByRequest(s);
      case EventPolled => ControlKeptByEvent(s);
      case PublishWoken => ControlKeptByPublish(s);
      case EndTurn => ControlKeptByEndTurn(s);
      case StartShutdown => ControlKeptByShutdown(s);
      case DrainEvent => ControlKeptByDrain(s);
    }
  }

  lemma ControlKeptByRequest(s: Sys)
    requires Control(s) && Quiet(s) && CanAct(s, RequestFresh)
    ensures Control(AfterAct(s, RequestFresh))
  {
  }

  lemma ControlKeptByShutdown(s: Sys)
    requires Control(s) && Quiet(s) && CanAct(s, StartShutdown)
    ensures Control(AfterAct(s, StartShutdown))
  {
  }

  lemma ControlKeptByEvent(s: Sys)
    requires Control(s) && Quiet(s) && CanAct(s, EventPolled)
    ensures Control(AfterAct(s, EventPolled))
  {
  }

  lemma ControlKeptByPublish(s: Sys)
    requires Control(s) && Quiet(s) && CanAct(s, PublishWoken)
    ensures Control(AfterAct(s, PublishWoken))
  {
  }

  lemma ControlKeptByEndTurn(s: Sys)
    requires Control(s) && Quiet(s) && CanAct(s, EndTurn)
    ensures Control(AfterAct(s, EndTurn))
  {
  }

  lemma ControlKeptByDrain(s: Sys)
    requires Control(s) && Quiet(s) && CanAct(s, DrainEvent)
    ensures Control(AfterAct(s, DrainEvent))
  {
  }

  lemma ControlKeptByCarry(s: Sys, carry: Carry)
    requires Control(s) && Quiet(s) && CanCarry(s, carry)
    ensures Control(AfterCarry(s, carry))
  {
    match carry {
      case Write(_) =>
      case ReceiveAck =>
      case Accept =>
      case Process =>
      case CloseSession =>
    }
  }

  lemma ControlKeptByRun(s: Sys, daemon: Daemon)
    requires Control(s) && Quiet(s) && CanRun(s, daemon)
    ensures Control(AfterRun(s, daemon))
  {
    match daemon {
      case SchedulerStart =>
      case SchedulerTick =>
      case SchedulerRequest =>
      case SchedulerStop =>
      case WorkerWake =>
      case WorkerRead =>
      case WorkerBegin =>
      case WorkerCollect(_) =>
      case WorkerStore =>
      case WorkerClear =>
      case WorkerEnd =>
      case SignalShutdown =>
    }
  }

  // ---- slots

  lemma SlotsKeptByWake(s: Sys, wake: Wake)
    requires SlotsOk(s) && CanWake(s, wake)
    ensures SlotsOk(AfterWake(s, wake))
  {
    match wake {
      case ConnAckPolled =>
      case OtherPolled =>
      case PollError =>
      case BackoffOver =>
      case BackoffShutdown =>
      case StatesChanged =>
      case StatesClosed =>
      case DrainOver =>
      case Killed =>
    }
  }

  /** Supervisor code touches the collection side only by asking for a request and by marking a state as seen. */
  lemma ActFrame(s: Sys, act: Act)
    requires CanAct(s, act)
    ensures var s' := AfterAct(s, act);
      && s'.broker == s.broker && s'.worker == s.worker && s'.workerSeen == s.workerSeen
      && s'.scheduler == s.scheduler && s'.collected == s.collected && s'.shutdown == s.shutdown
      && s'.core.states == s.core.states && s'.core.epoch == s.core.epoch
      && s'.core.seen in {s.core.seen, s.core.states.version}
      && (s'.core.requests == s.core.requests || s'.core.requests == Requested(s.core.requests))
  {
    match act {
      case RequestFresh =>
      case EventPolled =>
      case PublishWoken =>
      case EndTurn =>
      case StartShutdown =>
      case DrainEvent =>
    }
  }

  lemma SlotsKeptByFrame(s: Sys, s': Sys)
    requires SlotsOk(s)
    requires s'.worker == s.worker && s'.workerSeen == s.workerSeen && s'.collected == s.collected
    requires s'.core.states == s.core.states && s'.core.seen in {s.core.seen, s.core.states.version}
    requires s'.core.requests == s.core.requests || s'.core.requests == Requested(s.core.requests)
    ensures SlotsOk(s')
  {
  }

  lemma SlotsKeptByCarry(s: Sys, carry: Carry)
    requires SlotsOk(s) && CanCarry(s, carry)
    ensures SlotsOk(AfterCarry(s, carry))
  {
    match carry {
      case Write(_) =>
      case ReceiveAck =>
      case Accept =>
      case Process =>
      case CloseSession =>
    }
  }

  lemma SlotsKeptByRun(s: Sys, daemon: Daemon)
    requires SlotsOk(s) && CanRun(s, daemon)
    ensures SlotsOk(AfterRun(s, daemon))
  {
    match daemon {
      case SchedulerStart =>
      case SchedulerTick =>
      case SchedulerRequest =>
      case SchedulerStop =>
      case WorkerWake =>
      case WorkerRead =>
      case WorkerBegin =>
      case WorkerCollect(_) =>
      case WorkerStore =>
      case WorkerClear =>
      case WorkerEnd =>
      case SignalShutdown =>
    }
  }

  // ---- the client's pipeline

  ghost predicate CoreLinked(c: Core, link: Link) {
    LinkOk(c.machine.phase, c.queue, c.issued, link) && |c.queue| <= 2
  }

  /** With nothing awaited, everything reliable was acknowledged. */
  lemma OnlineIsAcknowledged(issued: seq<Action>, acked: seq<Action>)
    requires Reliable(issued) == acked && StageAfter(issued).Live?
    ensures PublishOnline in acked
  {
    AutomatonIsSound(issued);
    ReliableMembers(issued);
    assert issued[1] in issued;
  }

  /** A state goes out when nothing is queued or awaited, and "online" has been acknowledged. */
  lemma StateCounts(phase: Phase, pipe: seq<Action>, awaited: seq<Action>, issued: seq<Action>, acked: seq<Action>)
    requires CountsOk(phase, pipe, awaited, issued, acked) && (phase.AwaitFreshState? || phase.Online?)
    ensures PipeOk(StateQueued, pipe + [PublishState])
    ensures AwaitedOk(StateQueued, pipe + [PublishState], awaited + ReliableOf(PublishState))
    ensures StageOf(StateQueued) == Next(StageOf(phase), PublishState)
    ensures PublishOnline in acked
  {
    assert acked + awaited == acked;
    OnlineIsAcknowledged(issued, acked);
  }

  lemma PublishCurrentStateKeepsLink(c: Core, link: Link)
    requires CoreLinked(c, link)
    ensures
      var r := PublishCurrentState(c);
      r.Some? && LinkOk(r.value.machine.phase, r.value.queue, r.value.issued, link)
  {
    hide CountsOk, TagsOk, PipeOk, AwaitedOk, Pipe, Awaited, StageOf, Next;
    var phase := c.machine.phase;
    if c.states.value.Some? && c.machine.Eligible(c.states.value.value.requestId) {
      StateCounts(phase, Pipe(link.events, c.queue), Awaited(link.events, link.unacked, c.queue), c.issued, link.acked);
      hide LinkOk;
      LinkKeptByIssue(phase, StateQueued, c.queue, c.issued, link, PublishState);
    }
  }

  lemma StartBootstrapKeepsLink(c: Core, link: Link)
    requires CoreLinked(c, link) && c.machine.phase.Disconnected?
    ensures
      var r := StartBootstrap(c);
      r.Some? && LinkOk(r.value.machine.phase, r.value.queue, r.value.issued, link)
  {
    assert Just(Pipe(link.events, c.queue) + [PublishDiscovery], PublishDiscovery);
    LinkKeptByIssue(c.machine.phase, DiscoveryQueued, c.queue, c.issued, link, PublishDiscovery);
  }

  /** From every phase with a connection: what was queued is skipped, what was awaited may still be acknowledged. */
  lemma ShutdownCounts(phase: Phase, skip: bool, pipe: seq<Action>, awaited: seq<Action>)
    requires PipeOk(phase, pipe) && AwaitedOk(phase, pipe, awaited)
    requires !Leaving(phase) && !phase.Disconnected? && !phase.Stopped?
    requires skip == (phase.DiscoveryQueued? || phase.OnlineQueued? || phase.StateQueued?)
    ensures PipeOk(ShutdownAwaitOfflineOutgoing(skip), pipe + [PublishOffline])
    ensures AwaitedOk(ShutdownAwaitOfflineOutgoing(skip), pipe + [PublishOffline], awaited + ReliableOf(PublishOffline))
    ensures StageOf(ShutdownAwaitOfflineOutgoing(skip)) == Next(StageOf(phase), PublishOffline)
  {
  }

  lemma BeginShutdownKeepsLink(c: Core, link: Link)
    requires CoreLinked(c, link) && !Leaving(c.machine.phase)
    requires !c.machine.phase.Disconnected? && !c.machine.phase.Stopped?
    ensures
      var (r, awaiting) := BeginShutdown(c);
      awaiting && r.Some? && LinkOk(r.value.machine.phase, r.value.queue, r.value.issued, link)
  {
    hide TagsOk, PipeOk, AwaitedOk, Pipe, Awaited, StageOf, Next;
    var skip := c.machine.phase.DiscoveryQueued? || c.machine.phase.OnlineQueued? || c.machine.phase.StateQueued?;
    ShutdownCounts(c.machine.phase, skip, Pipe(link.events, c.queue), Awaited(link.events, link.unacked, c.queue));
    LinkKeptByIssue(c.machine.phase, ShutdownAwaitOfflineOutgoing(skip), c.queue, c.issued, link, PublishOffline);
  }

  lemma HandleOutgoingKeepsLink(c: Core, link: Link)
    requires CoreLinked(c, link) && link.events != [] && link.events[0].OutgoingPublish?
    ensures
      var r := HandleEvent(c, link.events[0]);
      r.Some? && LinkOk(r.value.machine.phase, r.value.queue, r.value.issued, TakeEvent(link))
  {
    hide LinkOk;
    LinkKeptByOutgoing(c.machine, c.queue, c.issued, link);
  }

  lemma HandleAckKeepsLink(c: Core, link: Link)
    requires CoreLinked(c, link) && link.events != [] && link.events[0].PubAck?
    ensures
      var r := HandleEvent(c, link.events[0]);
      r.Some? && LinkOk(r.value.machine.phase, r.value.queue, r.value.issued, TakeEvent(link))
  {
    hide LinkOk;
    LinkKeptByAck(c.machine, c.queue, c.issued, link);
  }

  lemma HandleEventKeepsLink(c: Core, link: Link)
    requires CoreLinked(c, link) && link.events != [] && !link.events[0].OutgoingDisconnect?
    ensures
      var r := HandleEvent(c, link.events[0]);
      r.Some? && LinkOk(r.value.machine.phase, r.value.queue, r.value.issued, TakeEvent(link))
  {
    assert EventOk(link.events[0]);
    if link.events[0].PubAck? {
      HandleAckKeepsLink(c, link);
    } else {
      HandleOutgoingKeepsLink(c, link);
    }
  }

  lemma LinkKeptByWake(s: Sys, wake: Wake)
    requires Control(s) && Linked(s) && CanWake(s, wake)
    ensures Linked(AfterWake(s, wake))
  {
    match wake {
      case ConnAckPolled =>
        assert s.core.queue == [];
      case _ =>
    }
  }

  lemma LinkKeptByEvents(s: Sys, act: Act)
    requires Control(s) && Quiet(s) && Linked(s) && CanAct(s, act) && (act.EventPolled? || act.DrainEvent?)
    ensures Linked(AfterAct(s, act))
  {
    if !s.link.events[0].OutgoingDisconnect? {
      HandleEventKeepsLink(s.core, s.link);
    }
  }

  lemma LinkKeptByEndTurn(s: Sys)
    requires Control(s) && Quiet(s) && Linked(s) && CanAct(s, EndTurn)
    ensures Linked(AfterAct(s, EndTurn))
  {
    hide LinkOk;
    if s.core.machine.becameOnline {
      var c := s.core.(machine := s.core.machine.(becameOnline := false), status := Status.Online);
      PublishCurrentStateKeepsLink(c, s.link);
    }
  }

  lemma LinkKeptByAct(s: Sys, act: Act)
    requires Control(s) && Quiet(s) && Linked(s) && CanAct(s, act)
    ensures Linked(AfterAct(s, act))
  {
    hide LinkOk;
    match act {
      case RequestFresh => StartBootstrapKeepsLink(s.core, s.link);
      case EventPolled => LinkKeptByEvents(s, act);
      case PublishWoken => PublishCurrentStateKeepsLink(s.core, s.link);
      case EndTurn => LinkKeptByEndTurn(s);
      case StartShutdown => if s.link.conn != 0 { BeginShutdownKeepsLink(s.core, s.link); }
      case DrainEvent => LinkKeptByEvents(s, act);
    }
  }

  lemma LinkIgnoresNetwork(phase: Phase, queue: seq<Action>, issued: seq<Action>, link: Link, link': Link)
    requires LinkOk(phase, queue, issued, link)
    requires link'.acked == link.acked && link'.events == link.events && link'.unacked == link.unacked
    ensures LinkOk(phase, queue, issued, link')
  {
    hide CountsOk, TagsOk;
  }

  lemma LinkKeptByCarry(s: Sys, carry: Carry)
    requires Linked(s) && CanCarry(s, carry)
    requires s.link.conn != 0 ==> s.link.acks <= s.link.unacked
    ensures Linked(AfterCarry(s, carry))
  {
    hide LinkOk;
    match carry {
      case Write(packetId) =>
        LinkKeptByWrite(s.core.machine.phase, s.core.queue, s.core.issued, s.link, Packet(s.core.queue[0], packetId));
      case ReceiveAck =>
        assert s.link.acks[0] == s.link.unacked[0];
        LinkKeptByReceive(s.core.machine.phase, s.core.queue, s.core.issued, s.link, s.link.acks[1..]);
      case Accept =>
      case Process =>
        if s.link.conn != 0 {
          LinkIgnoresNetwork(s.core.machine.phase, s.core.queue, s.core.issued, s.link, AfterCarry(s, carry).link);
        }
      case CloseSession =>
    }
  }

  lemma LinkKeptByRun(s: Sys, daemon: Daemon)
    requires Linked(s) && CanRun(s, daemon)
    ensures Linked(AfterRun(s, daemon))
  {
    hide LinkOk;
  }
}
