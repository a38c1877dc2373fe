/** What the system promises in every reachable state. */
module Theorems {
  import opened Bootstrap
  import opened Protocol
  import opened System
  import opened Invariants
  import opened LinkPreservation
  import opened Preservation
  import opened Reachability

  // ---- what subscribers see

  /**
   With no live session the retained availability is never "online"; while it is, the
   Discovery document is retained.
   */
  lemma AvailabilityNeverLies(s: Sys)
    requires Reachable(s)
    ensures s.broker.session == 0 ==> !s.broker.availability.RetainedOnline?
    ensures s.broker.availability.RetainedOnline? ==> s.broker.discovered
  {
    hide ControlOk, LinkOk, NetOk, SlotsOk, IdsOk, FreshOk, Apply;
    InvariantAlways(s);
  }

  /** The broker forwards a state only while the retained availability is "online". */
  lemma StatesOnlyWhileOnline(s: Sys)
    requires Reachable(s) && CanCarry(s, Process) && s.broker.wire[0].action.PublishState?
    ensures s.broker.availability.RetainedOnline?
  {
    hide ControlOk, LinkOk, NetOk, SlotsOk, IdsOk, FreshOk, Apply;
    InvariantAlways(s);
    ProcessedFirst(s.broker);
  }

  lemma ProcessedFirst(b: Broker)
    requires BrokerOk(b) && b.wire != []
    ensures !Next(StageAfter(b.processed), b.wire[0].action).Broken?
  {
    assert b.processed + Actions(b.wire) == (b.processed + [b.wire[0].action]) + Actions(b.wire[1..]);
    PrefixIsGood(b.processed + [b.wire[0].action], Actions(b.wire[1..]));
    StageAfterNext(b.processed, b.wire[0].action);
  }

  /** A DISCONNECT is processed only when "offline" is retained, so dropping the Will loses nothing. */
  lemma DisconnectOnlyWhenOffline(s: Sys)
    requires Reachable(s) && CanCarry(s, Process) && s.broker.wire[0].action.Disconnect?
    ensures s.broker.availability.RetainedOffline?
  {
    hide ControlOk, LinkOk, NetOk, SlotsOk, IdsOk, FreshOk, Apply;
    InvariantAlways(s);
    ProcessedFirst(s.broker);
  }

  lemma {:induction false} OnlyStatesAfterLive(before: seq<Action>, after: seq<Action>)
    requires StageAfter(before + after).Live? && forall i :: 0 <= i < |after| ==> after[i].PublishState?
    ensures StageAfter(before).Live?
    decreases |after|
  {
    if after == [] {
      assert before + after == before;
    } else {
      var shorter := after[..|after| - 1];
      assert before + after == (before + shorter) + [after[|after| - 1]];
      StageAfterNext(before + shorter, after[|after| - 1]);
      OnlyStatesAfterLive(before, shorter);
    }
  }

  lemma {:induction false} UnreliableActions(packets: seq<Packet>, i: nat)
    requires ReliablePackets(packets) == [] && i < |packets|
    ensures !AtLeastOnce(packets[i].action)
    decreases |packets|
  {
    if i > 0 {
      UnreliableActions(packets[1..], i - 1);
    }
  }

  lemma LiveAtBroker(queue: seq<Action>, issued: seq<Action>, link: Link, b: Broker)
    requires NetOk(queue, issued, link, b) && link.conn != 0 && link.conn == b.session
    requires link.unacked == [] && (queue == [] || queue == [PublishState])
    requires StageAfter(issued).Live? && BrokerOk(b)
    ensures b.availability.RetainedOnline?
  {
    var after := Actions(b.wire) + queue;
    assert issued == b.processed + after;
    assert ReliablePackets(b.wire) == [];
    AutomatonIsSound(issued);
    forall i | 0 <= i < |after|
      ensures after[i].PublishState?
    {
      if i < |b.wire| {
        UnreliableActions(b.wire, i);
        assert InPlace(issued, |b.processed| + i);
        assert issued[|b.processed| + i] == after[i];
      }
    }
    OnlyStatesAfterLive(b.processed, after);
  }

  /** An online client has nothing unacknowledged and at most a state queued. */
  lemma OnlineIsQuiet(s: Sys)
    requires Control(s) && Linked(s) && s.pc.Head? && s.core.status.Online?
    ensures s.link.conn != 0 && s.link.unacked == [] && StageAfter(s.core.issued).Live?
    ensures s.core.queue == [] || s.core.queue == [PublishState]
  {
    hide TagsOk, Outs, AckOuts, Reliable, StageAfter;
    var pipe, awaited := Pipe(s.link.events, s.core.queue), Awaited(s.link.events, s.link.unacked, s.core.queue);
    assert |s.link.unacked| <= |awaited| && |s.core.queue| <= |pipe|;
    if s.core.queue != [] {
      assert s.core.queue[0] == pipe[|Outs(s.link.events)|];
    }
  }

  /** While the supervisor reports Online and its session is live, subscribers see "online". */
  lemma ReportedOnlineIsVisible(s: Sys)
    requires Reachable(s) && s.pc.Head? && s.core.status.Online?
    requires s.link.conn == s.broker.session
    ensures s.broker.availability.RetainedOnline?
  {
    hide ControlOk, LinkOk, NetOk, BrokerOk, SlotsOk, IdsOk, FreshOk, Apply;
    InvariantAlways(s);
    OnlineIsQuiet(s);
    LiveAtBroker(s.core.queue, s.core.issued, s.link, s.broker);
  }

  // ---- acknowledgements and the shutdown tail

  /**
   In every phase that waits for an acknowledgement, the one polled next has the
   awaited identifier exactly when it belongs to the awaited publish.  So no stale
   acknowledgement is taken for the right one, and the right one is never ignored.
   */
  lemma AcknowledgementsMatch(s: Sys)
    requires Reachable(s) && Expected(s.core.machine.phase).Some?
    requires s.link.events != [] && s.link.events[0].PubAck?
    ensures s.link.events[0].packetId == Expected(s.core.machine.phase).value.packetId
       <==> s.link.events[0].action == Expected(s.core.machine.phase).value.action
  {
    hide CountsOk, BrokerOk, SlotsOk, IdsOk, FreshOk, Apply;
    InvariantAlways(s);
    AckTells(s.core.machine.phase, s.link.events, s.link.unacked);
  }

  /** The next outgoing event after a shutdown started is skipped exactly when it is not the offline publish. */
  lemma SkipsExactlyTheEarlierPublish(s: Sys)
    requires Reachable(s) && s.core.machine.phase.ShutdownAwaitOfflineOutgoing?
    requires s.link.events != [] && s.link.events[0].OutgoingPublish?
    ensures s.core.machine.phase.skipQueuedPublish <==> !s.link.events[0].action.PublishOffline?
  {
    hide TagsOk;
    hide SlotsOk, IdsOk, FreshOk, Apply;
    InvariantAlways(s);
    PollOutgoing(s.link.events, s.link.unacked, s.core.queue);
  }

  // ---- publication order

  /** On every connection the issued actions keep the order, whatever the interleaving. */
  lemma IssuedInOrder(s: Sys)
    requires Reachable(s) && s.link.conn != 0
    ensures InOrder(s.core.issued)
  {
    hide TagsOk;
    hide SlotsOk, IdsOk, FreshOk, Apply;
    InvariantAlways(s);
    AutomatonIsSound(s.core.issued);
  }

  /** The reliable publishes of an orderly connection. */
  lemma {:induction false} ReliableShape(actions: seq<Action>)
    requires !StageAfter(actions).Broken?
    ensures match StageAfter(actions)
      case Fresh => Reliable(actions) == []
      case Announced => Reliable(actions) == [PublishDiscovery]
      case Live => Reliable(actions) == [PublishDiscovery, PublishOnline]
      case Withdrawn | Closed =>
        || (Reliable(actions) == [PublishDiscovery, PublishOffline] && PublishOnline !in actions)
        || Reliable(actions) == [PublishDiscovery, PublishOnline, PublishOffline]
      case Broken => false
    decreases |actions|
  {
    if actions != [] {
      var before, last := actions[..|actions| - 1], actions[|actions| - 1];
      assert actions == before + [last];
      ReliableShape(before);
      ReliableAppend(before, last);
      assert PublishOnline in actions <==> PublishOnline in before || last.PublishOnline?;
      if StageAfter(before).Announced? {
        AutomatonIsSound(before);
        assert InPlace(before, 0);
      }
    }
  }

  lemma OnlineRestsOnDiscovery(phase: Phase, pipe: seq<Action>, awaited: seq<Action>, issued: seq<Action>,
                               acked: seq<Action>)
    requires CountsOk(phase, pipe, awaited, issued, acked) && PublishOnline in issued
    ensures PublishDiscovery in acked
  {
    ReliableShape(issued);
    ReliableMembers(issued);
    AutomatonIsSound(issued);
    hide Reliable, StageAfter;
    assert |awaited| < |Reliable(issued)| && Reliable(issued)[0] == PublishDiscovery;
    assert acked[0] == Reliable(issued)[0];
  }

  lemma DisconnectRestsOnOffline(phase: Phase, pipe: seq<Action>, awaited: seq<Action>, issued: seq<Action>,
                                 acked: seq<Action>)
    requires CountsOk(phase, pipe, awaited, issued, acked) && Disconnect in issued
    ensures PublishOffline in acked
  {
    ReliableMembers(issued);
    AutomatonIsSound(issued);
    hide Reliable, StageAfter;
    var i :| 0 <= i < |issued| && issued[i] == Disconnect;
    assert InPlace(issued, i);
    assert awaited == [] && acked == Reliable(issued);
    assert issued[i - 1] in issued;
  }

  /** What each later action rests on has been acknowledged to the supervisor. */
  lemma CountsGate(phase: Phase, pipe: seq<Action>, awaited: seq<Action>, issued: seq<Action>, acked: seq<Action>)
    requires CountsOk(phase, pipe, awaited, issued, acked)
    ensures PublishOnline in issued ==> PublishDiscovery in acked
    ensures PublishState in issued ==> PublishOnline in acked
    ensures Disconnect in issued ==> PublishOffline in acked
  {
    if PublishOnline in issued {
      OnlineRestsOnDiscovery(phase, pipe, awaited, issued, acked);
    }
    if Disconnect in issued {
      DisconnectRestsOnOffline(phase, pipe, awaited, issued, acked);
    }
  }

  /**
   "Online" is issued only after the broker has processed and acknowledged
   Discovery on this very connection, a state only after "online", the disconnect
   only after "offline".
   */
  lemma AcknowledgementsGateTheOrder(s: Sys)
    requires Reachable(s) && s.link.conn != 0
    ensures PublishOnline in s.core.issued ==> PublishDiscovery in s.link.acked && PublishDiscovery in s.link.settled
    ensures PublishState in s.core.issued ==> PublishOnline in s.link.acked && PublishOnline in s.link.settled
    ensures Disconnect in s.core.issued ==> PublishOffline in s.link.acked && PublishOffline in s.link.settled
  {
    hide TagsOk, CountsOk, ControlOk, BrokerOk, SlotsOk, IdsOk, FreshOk, Apply;
    InvariantAlways(s);
    CountsGate(s.core.machine.phase, Pipe(s.link.events, s.core.queue),
               Awaited(s.link.events, s.link.unacked, s.core.queue), s.core.issued, s.link.acked);
  }

  lemma ConservedParts(s: Sys)
    requires Linked(s) && Agreed(s) && s.link.conn != 0
    ensures Reliable(s.core.issued)
         == s.link.acked + (AckOuts(s.link.events) + Actions(s.link.unacked) + Reliable(s.core.queue))
    ensures s.link.settled == s.link.acked + AckOuts(s.link.events) + Actions(s.link.acks)
    ensures s.link.conn == s.broker.session ==>
      s.core.issued == s.broker.processed + Actions(s.broker.wire) + s.core.queue
  {
    hide TagsOk, PipeOk, AwaitedOk, Reliable, Actions, AckOuts, StageAfter;
  }

  /**
   Every QoS 1 publish of a connection is in exactly one place: acknowledged, awaited on the
   way back or out, or queued.
   */
  lemma PublishesAreConserved(s: Sys)
    requires Reachable(s) && s.link.conn != 0
    ensures Reliable(s.core.issued)
         == s.link.acked + AckOuts(s.link.events) + Actions(s.link.unacked) + Reliable(s.core.queue)
    ensures s.link.settled == s.link.acked + AckOuts(s.link.events) + Actions(s.link.acks)
    ensures s.link.conn == s.broker.session ==>
      s.core.issued == s.broker.processed + Actions(s.broker.wire) + s.core.queue
  {
    hide TagsOk, ControlOk, BrokerOk, LinkOk, NetOk, SlotsOk, IdsOk, FreshOk, Apply, Enabled;
    hide Reliable, Actions, AckOuts;
    InvariantAlways(s);
    ConservedParts(s);
    Regroup(s.link.acked, AckOuts(s.link.events), Actions(s.link.unacked), Reliable(s.core.queue));
  }

  // ---- bounded queues

  /** At most two requests are pending and two publishes unacknowledged, so no request is ever rejected. */
  lemma QueueNeverRejects(s: Sys)
    requires Reachable(s)
    ensures !s.pc.Failed?
    ensures |s.core.queue| <= 2 && |s.link.unacked| <= 2
    ensures forall step :: Enabled(s, step) ==> !Apply(s, step).pc.Failed?
  {
    hide LinkOk, BrokerOk, SlotsOk, IdsOk, FreshOk, Apply;
    InvariantAlways(s);
    QueuesAreShort(s);
    forall step | Enabled(s, step)
      ensures !Apply(s, step).pc.Failed?
    {
      NeverFails(Apply(s, step));
    }
  }

  /** The in-flight limit never holds a request back. */
  lemma WritesAreNeverBlocked(s: Sys)
    requires Reachable(s) && s.link.conn != 0 && s.core.queue != []
    ensures exists packetId: PacketId :: CanCarry(s, Write(packetId))
  {
    QueueNeverRejects(s);
    if AtLeastOnce(s.core.queue[0]) {
      var packetId := FreeId(s.link.unacked);
      assert CanCarry(s, Write(packetId));
    } else {
      assert CanCarry(s, Write(0));
    }
  }

  /** With at most two identifiers in use, one of 1, 2, 3 is free. */
  lemma FreeId(unacked: seq<Packet>) returns (packetId: PacketId)
    requires |unacked| <= 2
    ensures IdFree(unacked, packetId)
  {
    if id :| 1 <= id <= 3 && IdFree(unacked, id) {
      packetId := id;
    } else {
      assert !IdFree(unacked, 1) && !IdFree(unacked, 2) && !IdFree(unacked, 3);
      packetId := 1;
    }
  }

  // ---- reported status

  /** While the tail of a shutdown waits, the status says so. */
  lemma StatusInShutdown(s: Sys)
    requires Reachable(s) && s.pc.Draining?
    ensures s.core.status.ShuttingDown?
  {
    hide LinkOk, NetOk, BrokerOk, SlotsOk, IdsOk, FreshOk, Apply;
    InvariantAlways(s);
  }

  /** At the loop head no transition to online is pending, and the status is exactly the phase's. */
  lemma StatusRefinesPhase(s: Sys)
    requires Reachable(s) && s.pc.Head?
    ensures !s.core.machine.becameOnline
    ensures s.core.status.Online? <==>
      (s.core.machine.phase.Online? || (s.core.machine.phase.StateQueued? && !s.core.machine.bootstrapStateQueued))
    ensures s.core.status.Bootstrapping? <==>
      (Bootstrapped(s.core.machine.phase) || (s.core.machine.phase.StateQueued? && s.core.machine.bootstrapStateQueued))
    ensures s.core.status.Disconnected? <==> s.core.machine.phase.Disconnected?
    ensures s.core.status.Disconnected? <==> s.link.conn == 0
  {
    hide LinkOk, NetOk, BrokerOk, SlotsOk, IdsOk, FreshOk, Apply;
    InvariantAlways(s);
  }
}
