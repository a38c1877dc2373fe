/** The client's pipeline stays in order, whatever is queued, written, acknowledged or polled. */
module LinkPreservation {
  import opened Bootstrap
  import opened Client
  import opened Protocol
  import opened System
  import opened Invariants

  ghost predicate Distinct(actions: seq<Action>) {
    forall i, j :: 0 <= i < j < |actions| ==> actions[i] != actions[j]
  }

  lemma DistinctAt(actions: seq<Action>, i: nat, j: nat)
    requires Distinct(actions) && i < j < |actions|
    ensures actions[i] != actions[j]
  {
  }

  lemma DistinctParts(before: seq<Action>, after: seq<Action>)
    requires Distinct(before + after)
    ensures forall action :: action in before ==> action !in after
  {
    forall action | action in before && action in after
      ensures false
    {
      var i :| 0 <= i < |before| && before[i] == action;
      var j :| 0 <= j < |after| && after[j] == action;
      DistinctAt(before + after, i, |before| + j);
    }
  }

  // ---- how the projections change

  lemma PollProjections(events: seq<Event>, unacked: seq<Packet>, queue: seq<Action>)
    requires events != []
    ensures Pipe(events, queue) == OutOf(events[0]) + Pipe(events[1..], queue)
    ensures Awaited(events, unacked, queue) == AckOf(events[0]) + Awaited(events[1..], unacked, queue)
  {
  }

  lemma IssueProjections(events: seq<Event>, unacked: seq<Packet>, queue: seq<Action>, action: Action)
    ensures Pipe(events, queue + [action]) == Pipe(events, queue) + [action]
    ensures Awaited(events, unacked, queue + [action]) == Awaited(events, unacked, queue) + ReliableOf(action)
  {
    ReliableAppend(queue, action);
  }

  lemma Regroup(a: seq<Action>, b: seq<Action>, c: seq<Action>, d: seq<Action>)
    ensures (a + b) + c + d == a + (b + c) + d
    ensures a + b + (c + d) == a + (b + c) + d
  {
  }

  lemma PollOutgoing(events: seq<Event>, unacked: seq<Packet>, queue: seq<Action>)
    requires events != [] && events[0].OutgoingPublish?
    ensures Pipe(events, queue) != [] && Pipe(events, queue)[0] == events[0].action
    ensures Pipe(events, queue)[1..] == Pipe(events[1..], queue)
    ensures Awaited(events, unacked, queue) == Awaited(events[1..], unacked, queue)
  {
    PollProjections(events, unacked, queue);
  }

  lemma WriteProjections(events: seq<Event>, unacked: seq<Packet>, queue: seq<Action>, packet: Packet)
    requires queue != [] && packet.action == queue[0]
    ensures Pipe(events + [EventOf(packet)], queue[1..]) == Pipe(events, queue)
    ensures Awaited(events + [EventOf(packet)],
                    if AtLeastOnce(queue[0]) then unacked + [packet] else unacked, queue[1..])
         == Awaited(events, unacked, queue)
  {
    WritePipe(events, queue, packet);
    var unacked' := if AtLeastOnce(queue[0]) then unacked + [packet] else unacked;
    AckOutsAppend(events, EventOf(packet));
    assert AckOuts(events) + [] == AckOuts(events);
    WriteUnacked(unacked, packet);
    assert Reliable(queue) == ReliableOf(queue[0]) + Reliable(queue[1..]);
    hide Actions, Reliable, AckOuts, Pipe;
    Regroup(AckOuts(events), Actions(unacked), ReliableOf(queue[0]), Reliable(queue[1..]));
  }

  lemma WritePipe(events: seq<Event>, queue: seq<Action>, packet: Packet)
    requires queue != [] && packet.action == queue[0]
    ensures Pipe(events + [EventOf(packet)], queue[1..]) == Pipe(events, queue)
  {
    hide Outs;
    OutsAppend(events, EventOf(packet));
  }

  lemma WriteUnacked(unacked: seq<Packet>, packet: Packet)
    ensures Actions(if AtLeastOnce(packet.action) then unacked + [packet] else unacked)
         == Actions(unacked) + ReliableOf(packet.action)
  {
  }

  lemma ReceiveProjections(events: seq<Event>, unacked: seq<Packet>, queue: seq<Action>)
    requires unacked != []
    ensures Pipe(events + [PubAck(unacked[0].action, unacked[0].packetId)], queue) == Pipe(events, queue)
    ensures Awaited(events + [PubAck(unacked[0].action, unacked[0].packetId)], unacked[1..], queue)
         == Awaited(events, unacked, queue)
  {
    var event := PubAck(unacked[0].action, unacked[0].packetId);
    OutsAppend(events, event);
    AckOutsAppend(events, event);
    assert Outs(events) + [] == Outs(events);
    assert Actions(unacked) == [unacked[0].action] + Actions(unacked[1..]);
    Regroup(AckOuts(events), [unacked[0].action], Actions(unacked[1..]), Reliable(queue));
  }

  // ---- counts

  /** No publish is awaited twice, and at most two are. */
  lemma AwaitedDistinct(phase: Phase, pipe: seq<Action>, awaited: seq<Action>)
    requires PipeOk(phase, pipe) && AwaitedOk(phase, pipe, awaited)
    ensures Distinct(awaited) && |awaited| <= 2
  {
  }

  lemma CountsKeptByOutgoing(m: Machine, pipe: seq<Action>, awaited: seq<Action>, issued: seq<Action>,
                             acked: seq<Action>, packetId: PacketId)
    requires CountsOk(m.phase, pipe, awaited, issued, acked)
    requires pipe != [] && !pipe[0].Disconnect? && (packetId == 0 <==> !AtLeastOnce(pipe[0]))
    ensures CountsOk(m.OutgoingPublish(packetId).phase, pipe[1..], awaited, issued, acked)
  {
  }

  /** An acknowledgement that is not the expected one, and the one that ends the announcement of "online". */
  lemma CountsKeptByAck(m: Machine, pipe: seq<Action>, awaited: seq<Action>, issued: seq<Action>, acked: seq<Action>,
                        packetId: PacketId)
    requires CountsOk(m.phase, pipe, awaited, issued, acked)
    requires awaited != [] && awaited[0] !in pipe
    requires Expected(m.phase).Some? ==>
      (awaited[0] == Expected(m.phase).value.action <==> packetId == Expected(m.phase).value.packetId)
    requires m.PublishAcknowledged(packetId).action.None?
    ensures CountsOk(m.PublishAcknowledged(packetId).machine.phase, pipe, awaited[1..], issued, acked + [awaited[0]])
  {
    assert acked + awaited == (acked + [awaited[0]]) + awaited[1..];
  }

  /** An acknowledgement that makes the machine issue the next action. */
  lemma CountsKeptByReply(m: Machine, pipe: seq<Action>, awaited: seq<Action>, issued: seq<Action>, acked: seq<Action>,
                          packetId: PacketId)
    requires CountsOk(m.phase, pipe, awaited, issued, acked)
    requires awaited != []
    requires Expected(m.phase).Some? ==>
      (awaited[0] == Expected(m.phase).value.action <==> packetId == Expected(m.phase).value.packetId)
    requires m.PublishAcknowledged(packetId).action.Some?
    ensures
      var r := m.PublishAcknowledged(packetId);
      CountsOk(r.machine.phase, pipe + [r.action.value], awaited[1..] + ReliableOf(r.action.value),
               issued + [r.action.value], acked + [awaited[0]])
  {
    var action := m.PublishAcknowledged(packetId).action.value;
    assert awaited == [awaited[0]];
    StageAfterNext(issued, action);
    ReliableAppend(issued, action);
    assert awaited[1..] == [];
  }

  lemma CountsKeptByIssue(phase: Phase, phase': Phase, pipe: seq<Action>, awaited: seq<Action>, issued: seq<Action>,
                          acked: seq<Action>, action: Action)
    requires CountsOk(phase, pipe, awaited, issued, acked)
    requires StageOf(phase') == Next(StageOf(phase), action)
    requires PipeOk(phase', pipe + [action]) && AwaitedOk(phase', pipe + [action], awaited + ReliableOf(action))
    requires action.PublishState? ==> PublishOnline in acked
    ensures CountsOk(phase', pipe + [action], awaited + ReliableOf(action), issued + [action], acked)
  {
    StageAfterNext(issued, action);
    ReliableAppend(issued, action);
    assert acked + awaited + ReliableOf(action) == acked + (awaited + ReliableOf(action));
  }

  /** What is acknowledged first is not still waiting to be written, nor is its outgoing event still to come. */
  lemma AcknowledgedIsWritten(phase: Phase, queue: seq<Action>, events: seq<Event>, unacked: seq<Packet>)
    requires PipeOk(phase, Pipe(events, queue))
    requires AwaitedOk(phase, Pipe(events, queue), Awaited(events, unacked, queue))
    requires EventsOk(events) && WrittenFirst(events)
    requires events != [] && events[0].PubAck?
    ensures events[0].action !in Pipe(events, queue)
  {
    var action := events[0].action;
    var left := Awaited(events[1..], unacked, queue);
    assert EventOk(events[0]);
    PollProjections(events, unacked, queue);
    AwaitedDistinct(phase, Pipe(events, queue), Awaited(events, unacked, queue));
    DistinctParts([action], left);
    ReliableMembers(queue);
    NotInOuts(events, action);
  }

  // ---- polling the oldest event: identifiers

  lemma EventsTail(events: seq<Event>)
    requires events != [] && EventsOk(events) && WrittenFirst(events)
    ensures EventsOk(events[1..]) && WrittenFirst(events[1..])
  {
    forall i | 0 <= i < |events[1..]|
      ensures EventOk(events[1..][i])
    {
      assert EventOk(events[i + 1]);
    }
    forall i, j | 0 <= i < j < |events[1..]| && events[1..][i].PubAck? && events[1..][j].OutgoingPublish?
      ensures events[1..][i].action != events[1..][j].action
    {
      assert events[i + 1].action != events[j + 1].action;
    }
  }

  lemma TellsTail(action: Action, packetId: PacketId, events: seq<Event>, from: nat, unacked: seq<Packet>)
    requires events != [] && TellsAll(action, packetId, events, from + 1, unacked)
    ensures TellsAll(action, packetId, events[1..], from, unacked)
  {
    forall j | from <= j < |events[1..]| && events[1..][j].PubAck?
      ensures Tells(action, packetId, events[1..][j].action, events[1..][j].packetId)
    {
      assert Tells(action, packetId, events[j + 1].action, events[j + 1].packetId);
    }
  }

  lemma ArmedTail(phase: Phase, events: seq<Event>, unacked: seq<Packet>)
    requires events != [] && ArmedOk(phase, events, unacked)
    ensures ArmedOk(phase, events[1..], unacked)
  {
    forall i | 0 <= i < |events[1..]| && Armed(phase, events[1..][i])
      ensures TellsAll(events[1..][i].action, events[1..][i].packetId, events[1..], i + 1, unacked)
    {
      assert events[1..][i] == events[i + 1];
      TellsTail(events[i + 1].action, events[i + 1].packetId, events, i + 1, unacked);
    }
  }

  /** With no outgoing event left nothing is armed, in any phase. */
  lemma NothingArmed(phase: Phase, events: seq<Event>, unacked: seq<Packet>)
    requires Outs(events) == []
    ensures ArmedOk(phase, events, unacked)
  {
    forall i | 0 <= i < |events| && Armed(phase, events[i])
      ensures false
    {
      OutsMember(events, i);
    }
  }

  predicate Skips(phase: Phase) {
    phase.ShutdownAwaitOfflineOutgoing? && phase.skipQueuedPublish
  }

  /** Only a skipped publish is followed by another outgoing event. */
  lemma OnlySkippedIsFollowed(phase: Phase, events: seq<Event>, queue: seq<Action>)
    requires PipeOk(phase, Pipe(events, queue)) && events != [] && events[0].OutgoingPublish? && !Skips(phase)
    ensures Outs(events[1..]) == [] && PipeOk(phase, [events[0].action])
  {
    PollOutgoing(events, [], queue);
    assert |Pipe(events, queue)| == 1;
  }

  lemma TagsKeptByOutgoing(m: Machine, events: seq<Event>, unacked: seq<Packet>)
    requires TagsOk(m.phase, events, unacked)
    requires events != [] && events[0].OutgoingPublish?
    requires !Skips(m.phase) ==> Outs(events[1..]) == [] && PipeOk(m.phase, [events[0].action])
    ensures TagsOk(m.OutgoingPublish(events[0].packetId).phase, events[1..], unacked)
  {
    hide Outs;
    var action, packetId := events[0].action, events[0].packetId;
    var phase' := m.OutgoingPublish(packetId).phase;
    assert EventOk(events[0]);
    EventsTail(events);
    ArmedTail(m.phase, events, unacked);
    if !Skips(m.phase) {
      NothingArmed(phase', events[1..], unacked);
      if Expected(phase').Some? {
        assert Armed(m.phase, events[0]);
        TellsTail(action, packetId, events, 0, unacked);
      }
    }
  }

  /** Exactly the acknowledgement of the publish a phase waits for carries the identifier it waits for. */
  lemma AckTells(phase: Phase, events: seq<Event>, unacked: seq<Packet>)
    requires TagsOk(phase, events, unacked) && Expected(phase).Some?
    requires events != [] && events[0].PubAck?
    ensures events[0].action == Expected(phase).value.action
       <==> events[0].packetId == Expected(phase).value.packetId
  {
    var expected := Expected(phase).value;
    assert Tells(expected.action, expected.packetId, events[0].action, events[0].packetId);
  }

  lemma TagsKeptByAck(m: Machine, events: seq<Event>, unacked: seq<Packet>, queue: seq<Action>)
    requires TagsOk(m.phase, events, unacked) && PipeOk(m.phase, Pipe(events, queue))
    requires events != [] && events[0].PubAck?
    ensures TagsOk(m.PublishAcknowledged(events[0].packetId).machine.phase, events[1..], unacked)
  {
    var phase' := m.PublishAcknowledged(events[0].packetId).machine.phase;
    EventsTail(events);
    ArmedTail(m.phase, events, unacked);
    if Expected(m.phase).Some? {
      var expected := Expected(m.phase).value;
      TellsFrom(expected.action, expected.packetId, events, unacked);
      TellsTail(expected.action, expected.packetId, events, 0, unacked);
      assert Outs(events[1..]) == [];
      NothingArmed(phase', events[1..], unacked);
    }
  }

  lemma TellsFrom(action: Action, packetId: PacketId, events: seq<Event>, unacked: seq<Packet>)
    requires TellsAll(action, packetId, events, 0, unacked)
    ensures TellsAll(action, packetId, events, 1, unacked)
  {
  }

  lemma LinkKeptByOutgoing(m: Machine, queue: seq<Action>, issued: seq<Action>, link: Link)
    requires LinkOk(m.phase, queue, issued, link)
    requires link.events != [] && link.events[0].OutgoingPublish?
    ensures LinkOk(m.OutgoingPublish(link.events[0].packetId).phase, queue, issued, TakeEvent(link))
  {
    assert EventOk(link.events[0]);
    PollOutgoing(link.events, link.unacked, queue);
    CountsKeptByOutgoing(m, Pipe(link.events, queue), Awaited(link.events, link.unacked, queue), issued, link.acked,
                         link.events[0].packetId);
    if !Skips(m.phase) { OnlySkippedIsFollowed(m.phase, link.events, queue); }
    TagsKeptByOutgoing(m, link.events, link.unacked);
  }

  lemma LinkKeptByAck(m: Machine, queue: seq<Action>, issued: seq<Action>, link: Link)
    requires LinkOk(m.phase, queue, issued, link)
    requires link.events != [] && link.events[0].PubAck?
    ensures var r := m.PublishAcknowledged(link.events[0].packetId);
      if r.action.Some? then
        LinkOk(r.machine.phase, queue + [r.action.value], issued + [r.action.value], TakeEvent(link))
      else LinkOk(r.machine.phase, queue, issued, TakeEvent(link))
  {
    var packetId := link.events[0].packetId;
    var r := m.PublishAcknowledged(packetId);
    var pipe, awaited := Pipe(link.events, queue), Awaited(link.events, link.unacked, queue);
    AcknowledgedIsWritten(m.phase, queue, link.events, link.unacked);
    TagsKeptByAck(m, link.events, link.unacked, queue);
    if Expected(m.phase).Some? {
      AckTells(m.phase, link.events, link.unacked);
    }
    PollProjections(link.events, link.unacked, queue);
    assert awaited[0] == link.events[0].action && awaited[1..] == Awaited(link.events[1..], link.unacked, queue);
    if r.action.None? {
      CountsKeptByAck(m, pipe, awaited, issued, link.acked, packetId);
    } else {
      CountsKeptByReply(m, pipe, awaited, issued, link.acked, packetId);
      IssueProjections(link.events[1..], link.unacked, queue, r.action.value);
    }
  }

  // ---- an action is issued without an event

  /** Starting the bootstrap, publishing a state and starting the shutdown. */
  lemma LinkKeptByIssue(phase: Phase, phase': Phase, queue: seq<Action>, issued: seq<Action>, link: Link,
                        action: Action)
    requires LinkOk(phase, queue, issued, link)
    requires phase'.DiscoveryQueued? || phase'.StateQueued? || phase'.ShutdownAwaitOfflineOutgoing?
    requires !phase.ShutdownAwaitOfflineOutgoing?
    requires StageOf(phase') == Next(StageOf(phase), action)
    requires PipeOk(phase', Pipe(link.events, queue) + [action])
    requires AwaitedOk(phase', Pipe(link.events, queue) + [action],
                       Awaited(link.events, link.unacked, queue) + ReliableOf(action))
    requires action.PublishState? ==> PublishOnline in link.acked
    ensures LinkOk(phase', queue + [action], issued + [action], link)
  {
    CountsKeptByIssue(phase, phase', Pipe(link.events, queue), Awaited(link.events, link.unacked, queue), issued,
                      link.acked, action);
    IssueProjections(link.events, link.unacked, queue, action);
    TagsKeptByIssue(phase, phase', link.events, link.unacked);
  }

  lemma TagsKeptByIssue(phase: Phase, phase': Phase, events: seq<Event>, unacked: seq<Packet>)
    requires TagsOk(phase, events, unacked) && Expected(phase').None? && !phase.ShutdownAwaitOfflineOutgoing?
    ensures TagsOk(phase', events, unacked)
  {
    forall i | 0 <= i < |events| && Armed(phase', events[i])
      ensures TellsAll(events[i].action, events[i].packetId, events, i + 1, unacked)
    {
      assert Armed(phase, events[i]);
    }
  }

  // ---- the transport writes the oldest request

  /** While a request waits to be written, no written publish is armed: only a skipped one can precede it. */
  lemma NothingArmedBefore(phase: Phase, queue: seq<Action>, events: seq<Event>)
    requires PipeOk(phase, Pipe(events, queue)) && queue != []
    ensures Expected(phase).None?
    ensures AtLeastOnce(queue[0]) ==> forall i :: 0 <= i < |events| ==> !Armed(phase, events[i])
  {
    var pipe := Pipe(events, queue);
    assert |pipe| == |Outs(events)| + |queue|;
    if Outs(events) != [] {
      assert pipe[0] == Outs(events)[0];
      assert |pipe| == 2 && |Outs(events)| == 1;
    }
    forall i | 0 <= i < |events| && AtLeastOnce(queue[0])
      ensures !Armed(phase, events[i])
    {
      OutsMember(events, i);
    }
  }

  /** The request being written is not awaited by anything already written. */
  lemma WriteIsNew(phase: Phase, queue: seq<Action>, events: seq<Event>, unacked: seq<Packet>)
    requires PipeOk(phase, Pipe(events, queue)) && queue != [] && AtLeastOnce(queue[0])
    requires AwaitedOk(phase, Pipe(events, queue), Awaited(events, unacked, queue))
    ensures queue[0] !in AckOuts(events) && queue[0] !in Actions(unacked)
  {
    AwaitedDistinct(phase, Pipe(events, queue), Awaited(events, unacked, queue));
    DistinctParts(AckOuts(events) + Actions(unacked), Reliable(queue));
    ReliableMembers(queue);
    assert queue[0] in queue;
  }

  lemma TagsKeptByWrite(phase: Phase, events: seq<Event>, unacked: seq<Packet>, packet: Packet)
    requires TagsOk(phase, events, unacked) && Expected(phase).None?
    requires AtLeastOnce(packet.action)
    requires packet.action !in AckOuts(events) && packet.action !in Actions(unacked)
    requires forall i :: 0 <= i < |events| ==> !Armed(phase, events[i])
    requires IdFree(unacked, packet.packetId)
    ensures TagsOk(phase, events + [EventOf(packet)], unacked + [packet])
  {
    var events', unacked' := events + [EventOf(packet)], unacked + [packet];
    forall i, j | 0 <= i < j < |events'| && events'[i].PubAck? && events'[j].OutgoingPublish?
      ensures events'[i].action != events'[j].action
    {
      OutsMember(events, i);
    }
    forall k | 0 <= k < |unacked'|
      ensures Tells(packet.action, packet.packetId, unacked'[k].action, unacked'[k].packetId)
    {
      assert k < |unacked| ==> unacked[k].action in Actions(unacked) by {
        assert k < |unacked| ==> Actions(unacked)[k] == unacked[k].action;
      }
    }
  }

  lemma TagsKeptByUnreliableWrite(phase: Phase, events: seq<Event>, unacked: seq<Packet>, packet: Packet)
    requires TagsOk(phase, events, unacked) && Expected(phase).None?
    requires !AtLeastOnce(packet.action) && packet.packetId == 0
    ensures TagsOk(phase, events + [EventOf(packet)], unacked)
  {
    var events' := events + [EventOf(packet)];
    forall i, j | 0 <= i < j < |events'| && events'[i].PubAck? && events'[j].OutgoingPublish?
      ensures events'[i].action != events'[j].action
    {
      assert EventOk(events[i]);
    }
    forall i | 0 <= i < |events'| && Armed(phase, events'[i])
      ensures TellsAll(events'[i].action, events'[i].packetId, events', i + 1, unacked)
    {
      assert TellsAll(events[i].action, events[i].packetId, events, i + 1, unacked);
    }
  }

  lemma LinkKeptByWrite(phase: Phase, queue: seq<Action>, issued: seq<Action>, link: Link, packet: Packet)
    requires LinkOk(phase, queue, issued, link) && queue != [] && packet.action == queue[0]
    requires if AtLeastOnce(queue[0]) then IdFree(link.unacked, packet.packetId) else packet.packetId == 0
    ensures LinkOk(phase, queue[1..], issued,
                   link.(events := link.events + [EventOf(packet)],
                         unacked := if AtLeastOnce(queue[0]) then link.unacked + [packet] else link.unacked))
  {
    WriteProjections(link.events, link.unacked, queue, packet);
    NothingArmedBefore(phase, queue, link.events);
    if AtLeastOnce(queue[0]) {
      WriteIsNew(phase, queue, link.events, link.unacked);
      TagsKeptByWrite(phase, link.events, link.unacked, packet);
    } else {
      TagsKeptByUnreliableWrite(phase, link.events, link.unacked, packet);
    }
  }

  // ---- an acknowledgement arrives

  lemma TellsReceived(action: Action, packetId: PacketId, events: seq<Event>, from: nat, unacked: seq<Packet>)
    requires unacked != [] && TellsAll(action, packetId, events, from, unacked)
    ensures TellsAll(action, packetId, events + [PubAck(unacked[0].action, unacked[0].packetId)], from, unacked[1..])
  {
  }

  lemma TagsKeptByReceive(phase: Phase, events: seq<Event>, unacked: seq<Packet>)
    requires TagsOk(phase, events, unacked) && unacked != []
    ensures TagsOk(phase, events + [PubAck(unacked[0].action, unacked[0].packetId)], unacked[1..])
  {
    var events' := events + [PubAck(unacked[0].action, unacked[0].packetId)];
    forall i | 0 <= i < |events'| && Armed(phase, events'[i])
      ensures TellsAll(events'[i].action, events'[i].packetId, events', i + 1, unacked[1..])
    {
      assert Armed(phase, events[i]);
      TellsReceived(events[i].action, events[i].packetId, events, i + 1, unacked);
    }
    if Expected(phase).Some? {
      TellsReceived(Expected(phase).value.action, Expected(phase).value.packetId, events, 0, unacked);
    }
  }

  lemma LinkKeptByReceive(phase: Phase, queue: seq<Action>, issued: seq<Action>, link: Link, acks: seq<Packet>)
    requires LinkOk(phase, queue, issued, link) && link.unacked != []
    ensures
      var packet := link.unacked[0];
      LinkOk(phase, queue, issued,
             link.(acks := acks, unacked := link.unacked[1..],
                   events := link.events + [PubAck(packet.action, packet.packetId)]))
  {
    ReceiveProjections(link.events, link.unacked, queue);
    TagsKeptByReceive(phase, link.events, link.unacked);
  }
}
