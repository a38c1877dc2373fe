/** The broker's session and its agreement with the client. */
module BrokerPreservation {
  import opened Bootstrap
  import opened Client
  import opened Protocol
  import opened System
  import opened Invariants
  import opened LinkPreservation
  import opened Preservation

  // ---- broker

  lemma MoveOne(before: seq<Action>, wire: seq<Action>, queue: seq<Action>)
    requires queue != []
    ensures before + wire + queue == before + (wire + [queue[0]]) + queue[1..]
  {
  }

  lemma WriteStaysGood(before: seq<Action>, wire: seq<Action>, queue: seq<Action>)
    requires queue != [] && !StageAfter(before + wire + queue).Broken?
    ensures !StageAfter(before + (wire + [queue[0]])).Broken?
  {
    MoveOne(before, wire, queue);
    PrefixIsGood(before + (wire + [queue[0]]), queue[1..]);
  }

  lemma ActionsAppend(wire: seq<Packet>, packet: Packet)
    ensures Actions(wire + [packet]) == Actions(wire) + [packet.action]
  {
  }

  lemma BrokerKeptByWrite(s: Sys, packetId: PacketId)
    requires Linked(s) && BrokerOk(s.broker) && Agreed(s) && CanCarry(s, Write(packetId))
    ensures BrokerOk(AfterCarry(s, Write(packetId)).broker)
  {
    hide TagsOk, PipeOk, AwaitedOk, Actions, Reliable, ReliablePackets, Awaited, Pipe;
    var b := s.broker;
    if b.session == s.link.conn {
      ActionsAppend(b.wire, Packet(s.core.queue[0], packetId));
      WriteStaysGood(b.processed, Actions(b.wire), s.core.queue);
    }
  }

  lemma ProcessedMore(processed: seq<Action>, wire: seq<Packet>)
    requires wire != [] && !StageAfter(processed + Actions(wire)).Broken?
    ensures !StageAfter((processed + [wire[0].action]) + Actions(wire[1..])).Broken?
    ensures StageAfter(processed + [wire[0].action]) == Next(StageAfter(processed), wire[0].action)
    ensures !StageAfter(processed + [wire[0].action]).Broken?
  {
    var action := wire[0].action;
    assert processed + Actions(wire) == (processed + [action]) + Actions(wire[1..]);
    PrefixIsGood(processed + [action], Actions(wire[1..]));
    StageAfterNext(processed, action);
  }

  /** What is retained keeps up with the stage, or the session ends with "offline" retained. */
  lemma StoreKeepsUp(b: Broker, stage: Stage)
    requires b.wire != [] && StoreOk(stage, b.availability, b.discovered)
    requires !Next(stage, b.wire[0].action).Broken?
    ensures var b', action := ProcessPacket(b), b.wire[0].action;
      if action.Disconnect? then b'.availability.RetainedOffline?
      else StoreOk(Next(stage, action), b'.availability, b'.discovered)
  {
  }

  lemma BrokerKeptByProcess(b: Broker)
    requires BrokerOk(b) && b.session != 0 && b.wire != []
    ensures BrokerOk(ProcessPacket(b))
  {
    ProcessedMore(b.processed, b.wire);
    StoreKeepsUp(b, StageAfter(b.processed));
    assert !StageAfter([] + Actions([])).Broken? by {
      assert [] + Actions([]) == [];
    }
    hide StageAfter, Actions, StoreOk, Next;
  }

  lemma BrokerKeptByCarry(s: Sys, carry: Carry)
    requires Linked(s) && BrokerOk(s.broker) && Agreed(s) && CanCarry(s, carry)
    ensures BrokerOk(AfterCarry(s, carry).broker)
  {
    match carry {
      case Write(packetId) => BrokerKeptByWrite(s, packetId);
      case ReceiveAck =>
      case Accept => assert [] + Actions([]) == [];
      case Process => BrokerKeptByProcess(s.broker);
      case CloseSession => assert [] + Actions([]) == [];
    }
  }

  // ---- agreement

  /** Supervisor code appends the same actions to the queue and to the history, and may take one event. */
  lemma ActIssues(s: Sys, act: Act) returns (more: seq<Action>)
    requires CanAct(s, act)
    ensures var s' := AfterAct(s, act);
      || s'.link == NO_LINK
      || (s'.core.queue == s.core.queue + more && s'.core.issued == s.core.issued + more
          && (s'.link == s.link || (s.link.events != [] && s'.link == TakeEvent(s.link))))
  {
    var s' := AfterAct(s, act);
    more := if |s.core.issued| <= |s'.core.issued| then s'.core.issued[|s.core.issued|..] else [];
    match act {
      case RequestFresh =>
      case EventPolled =>
      case PublishWoken =>
      case EndTurn =>
      case StartShutdown =>
      case DrainEvent =>
    }
  }

  lemma AgreedAfterTake(queue: seq<Action>, issued: seq<Action>, link: Link, b: Broker)
    requires NetOk(queue, issued, link, b) && link.events != []
    ensures NetOk(queue, issued, TakeEvent(link), b)
  {
    if link.conn != 0 {
      var event := link.events[0];
      assert AckOuts(link.events) == AckOf(event) + AckOuts(link.events[1..]);
      Regroup(link.acked, AckOf(event), AckOuts(link.events[1..]), Actions(link.acks));
      assert link.acked + [] == link.acked;
    }
  }

  lemma AgreedAfterIssue(queue: seq<Action>, issued: seq<Action>, link: Link, b: Broker, more: seq<Action>)
    requires NetOk(queue, issued, link, b)
    ensures NetOk(queue + more, issued + more, link, b)
  {
    assert b.processed + Actions(b.wire) + (queue + more) == b.processed + Actions(b.wire) + queue + more;
  }

  lemma AgreedKeptByAct(s: Sys, act: Act)
    requires Agreed(s) && CanAct(s, act)
    ensures Agreed(AfterAct(s, act))
  {
    ActFrame(s, act);
    var more := ActIssues(s, act);
    var s' := AfterAct(s, act);
    if s'.link != NO_LINK {
      if s'.link != s.link {
        AgreedAfterTake(s.core.queue, s.core.issued, s.link, s.broker);
      }
      AgreedAfterIssue(s.core.queue, s.core.issued, s'.link, s.broker, more);
    }
  }

  lemma AgreedKeptByWake(s: Sys, wake: Wake)
    requires Control(s) && Agreed(s) && CanWake(s, wake)
    ensures Agreed(AfterWake(s, wake))
  {
    match wake {
      case ConnAckPolled =>
      case OtherPolled =>
      case PollError =>
      case BackoffOver =>
      case BackoffShutdown =>
      case StatesChanged =>
      case StatesClosed =>
      case DrainOver =>
      case Killed =>
    }
  }

  lemma AgreedKeptByWrite(s: Sys, packetId: PacketId)
    requires Agreed(s) && CanCarry(s, Write(packetId))
    ensures Agreed(AfterCarry(s, Write(packetId)))
  {
    hide Actions, ReliablePackets, AckOuts;
    var b, queue, link := s.broker, s.core.queue, s.link;
    var packet := Packet(queue[0], packetId);
    AckOutsAppend(link.events, EventOf(packet));
    assert AckOuts(link.events) + [] == AckOuts(link.events);
    if b.session == link.conn {
      ReliablePacketsAppend(b.wire, packet);
      ActionsAppend(b.wire, packet);
      MoveOne(b.processed, Actions(b.wire), queue);
    }
  }

  lemma AgreedKeptByReceive(s: Sys)
    requires Agreed(s) && CanCarry(s, ReceiveAck)
    ensures Agreed(AfterCarry(s, ReceiveAck))
  {
    var link := s.link;
    var packet := link.acks[0];
    var event := PubAck(packet.action, packet.packetId);
    AckOutsAppend(link.events, event);
    assert Actions(link.acks) == [packet.action] + Actions(link.acks[1..]);
    assert link.acked + (AckOuts(link.events) + [packet.action]) + Actions(link.acks[1..])
        == link.acked + AckOuts(link.events) + Actions(link.acks);
  }

  lemma ProcessMoves(processed: seq<Action>, wire: seq<Packet>, queue: seq<Action>, acks: seq<Packet>)
    requires wire != []
    ensures processed + Actions(wire) + queue == (processed + [wire[0].action]) + Actions(wire[1..]) + queue
    ensures AtLeastOnce(wire[0].action) ==>
      acks + ReliablePackets(wire) == (acks + [wire[0]]) + ReliablePackets(wire[1..])
    ensures !AtLeastOnce(wire[0].action) ==> ReliablePackets(wire) == ReliablePackets(wire[1..])
  {
    assert Actions(wire) == [wire[0].action] + Actions(wire[1..]);
  }

  lemma AgreedKeptByProcess(s: Sys)
    requires Agreed(s) && CanCarry(s, Process)
    ensures Agreed(AfterCarry(s, Process))
  {
    ProcessMoves(s.broker.processed, s.broker.wire, s.core.queue, s.link.acks);
    ActionsAppend(s.link.acks, s.broker.wire[0]);
    hide Actions, ReliablePackets, AckOuts;
  }

  lemma AgreedKeptByCarry(s: Sys, carry: Carry)
    requires BrokerOk(s.broker) && Agreed(s) && CanCarry(s, carry)
    ensures Agreed(AfterCarry(s, carry))
  {
    match carry {
      case Write(packetId) => AgreedKeptByWrite(s, packetId);
      case ReceiveAck => AgreedKeptByReceive(s);
      case Accept =>
      case Process => AgreedKeptByProcess(s);
      case CloseSession =>
    }
  }
}
