/**
 The publication state machine of one MQTT session: Discovery, acknowledged;
 availability "online", acknowledged; fresh state; then periodic state; and on
 shutdown availability "offline", acknowledged, before the orderly disconnect.
 */
module Bootstrap {
  import opened Wrappers

  type PacketId = n: nat | n < 0x1_0000

  datatype Phase =
    | Disconnected
    | DiscoveryQueued
    | DiscoveryAwaitAck(expected: PacketId)
    | OnlineQueued
    | OnlineAwaitAck(expected: PacketId)
    | AwaitFreshState
    | StateQueued
    | Online
    | ShutdownAwaitOfflineOutgoing(skipQueuedPublish: bool)
    | ShutdownAwaitOfflineAck(expected: PacketId)
    | DisconnectQueued
    | Stopped

  datatype Action =
    | PublishDiscovery
    | PublishOnline
    | PublishState
    | PublishOffline
    | Disconnect

  /** Discovery and availability are published at least once; state is published at most once. */
  predicate AtLeastOnce(action: Action) {
    action.PublishDiscovery? || action.PublishOnline? || action.PublishOffline?
  }

  predicate Leaving(phase: Phase) {
    phase.ShutdownAwaitOfflineOutgoing? || phase.ShutdownAwaitOfflineAck? || phase.DisconnectQueued?
  }

  /** A state of the machine together with the action an event makes it ask for. */
  datatype Reply = Reply(machine: Machine, action: Option<Action>)

  datatype Machine = Machine(
    phase: Phase,
    required: u64,
    lastState: u64,
    bootstrapStateQueued: bool,
    becameOnline: bool)
  {
    function Connected(requiredRequest: u64): (m: Machine) {
      this.(phase := DiscoveryQueued, required := requiredRequest, bootstrapStateQueued := false, becameOnline := false)
    }

    function OutgoingPublish(packetId: PacketId): (m: Machine) {
      match phase
      case DiscoveryQueued => if packetId != 0 then this.(phase := DiscoveryAwaitAck(packetId)) else this
      case OnlineQueued => if packetId != 0 then this.(phase := OnlineAwaitAck(packetId)) else this
      case StateQueued =>
        if packetId == 0 then
          this.(phase := Online, becameOnline := bootstrapStateQueued, bootstrapStateQueued := false)
        else this
      case ShutdownAwaitOfflineOutgoing(skip) =>
        if skip then this.(phase := ShutdownAwaitOfflineOutgoing(false))
        else if packetId != 0 then this.(phase := ShutdownAwaitOfflineAck(packetId))
        else this
      case _ => this
    }

    function PublishAcknowledged(packetId: PacketId): (r: Reply) {
      match phase
      case DiscoveryAwaitAck(expected) =>
        if expected == packetId then Reply(this.(phase := OnlineQueued), Some(PublishOnline)) else Reply(this, None)
      case OnlineAwaitAck(expected) =>
        if expected == packetId then Reply(this.(phase := AwaitFreshState), None) else Reply(this, None)
      case ShutdownAwaitOfflineAck(expected) =>
        if expected == packetId then Reply(this.(phase := DisconnectQueued), Some(Disconnect)) else Reply(this, None)
      case _ => Reply(this, None)
    }

    /** Which states the present phase may publish. */
    predicate Eligible(requestId: u64) {
      match phase
      case AwaitFreshState => requestId >= required
      case Online => requestId > lastState
      case _ => false
    }

    function StateAvailable(requestId: u64): (r: Reply) {
      if Eligible(requestId) then
        Reply(this.(phase := StateQueued, lastState := requestId,
                    bootstrapStateQueued := phase.AwaitFreshState?, becameOnline := false), Some(PublishState))
      else
        Reply(this, None)
    }

    function Shutdown(): (r: Reply) {
      match phase
      case Disconnected | Stopped => Reply(this.(phase := Stopped), None)
      case ShutdownAwaitOfflineOutgoing(_) | ShutdownAwaitOfflineAck(_) | DisconnectQueued => Reply(this, None)
      case _ =>
        var skip := phase.DiscoveryQueued? || phase.OnlineQueued? || phase.StateQueued?;
        Reply(this.(phase := ShutdownAwaitOfflineOutgoing(skip)), Some(PublishOffline))
    }

    function Disconnected(): (m: Machine) {
      this.(phase := Stopped)
    }

    function ConnectionLost(): (m: Machine) {
      this.(phase := Phase.Disconnected, bootstrapStateQueued := false, becameOnline := false)
    }

    predicate AcceptsState() {
      phase.AwaitFreshState? || phase.Online?
    }
  }

  const INITIAL_MACHINE := Machine(Phase.Disconnected, 0, 0, false, false)

  /** The machine as the supervisor holds it: five fields updated in place. */
  class BootstrapMachine {
    var phase: Phase
    var required: u64
    var lastState: u64
    var bootstrapStateQueued: bool
    var becameOnline: bool

    ghost function State(): (m: Machine)
      reads this
    {
      Machine(phase, required, lastState, bootstrapStateQueued, becameOnline)
    }

    constructor ()
      ensures State() == INITIAL_MACHINE
    {
      phase, required, lastState := Phase.Disconnected, 0, 0;
      bootstrapStateQueued, becameOnline := false, false;
    }

    method Connected(requiredRequest: u64) returns (action: Action)
      modifies this
      ensures State() == old(State()).Connected(requiredRequest)
      ensures action == PublishDiscovery
    {
      required := requiredRequest;
      bootstrapStateQueued := false;
      becameOnline := false;
      phase := DiscoveryQueued;
      action := PublishDiscovery;
    }

    method OutgoingPublish(packetId: PacketId)
      modifies this
      ensures State() == old(State()).OutgoingPublish(packetId)
    {
      match phase {
        case DiscoveryQueued =>
          if packetId != 0 { phase := DiscoveryAwaitAck(packetId); }
        case OnlineQueued =>
          if packetId != 0 { phase := OnlineAwaitAck(packetId); }
        case StateQueued =>
          if packetId == 0 {
            phase := Online;
            becameOnline := bootstrapStateQueued;
            bootstrapStateQueued := false;
          }
        case ShutdownAwaitOfflineOutgoing(skip) =>
          if skip {
            phase := ShutdownAwaitOfflineOutgoing(false);
          } else if packetId != 0 {
            phase := ShutdownAwaitOfflineAck(packetId);
          }
        case _ =>
      }
    }

    method PublishAcknowledged(packetId: PacketId) returns (action: Option<Action>)
      modifies this
      ensures Reply(State(), action) == old(State()).PublishAcknowledged(packetId)
    {
      action := None;
      match phase {
        case DiscoveryAwaitAck(expected) =>
          if expected == packetId {
            phase := OnlineQueued;
            action := Some(PublishOnline);
          }
        case OnlineAwaitAck(expected) =>
          if expected == packetId {
            phase := AwaitFreshState;
          }
        case ShutdownAwaitOfflineAck(expected) =>
          if expected == packetId {
            phase := DisconnectQueued;
            action := Some(Disconnect);
          }
        case _ =>
      }
    }

    method StateAvailable(requestId: u64) returns (action: Option<Action>)
      modifies this
      ensures Reply(State(), action) == old(State()).StateAvailable(requestId)
    {
      var allowed :=
        match phase
        case AwaitFreshState => requestId >= required
        case Online => requestId > lastState
        case _ => false;
      action := None;
      if allowed {
        bootstrapStateQueued := phase == AwaitFreshState;
        lastState := requestId;
        becameOnline := false;
        phase := StateQueued;
        action := Some(PublishState);
      }
    }

    method Shutdown() returns (action: Option<Action>)
      modifies this
      ensures Reply(State(), action) == old(State()).Shutdown()
    {
      action := None;
      match phase {
        case Disconnected | Stopped =>
          phase := Stopped;
        case ShutdownAwaitOfflineOutgoing(_) | ShutdownAwaitOfflineAck(_) | DisconnectQueued =>
        case _ =>
          var skip := phase == DiscoveryQueued || phase == OnlineQueued || phase == StateQueued;
          phase := ShutdownAwaitOfflineOutgoing(skip);
          action := Some(PublishOffline);
      }
    }

    method Disconnected()
      modifies this
      ensures State() == old(State()).Disconnected()
    {
      phase := Stopped;
    }

    method ConnectionLost()
      modifies this
      ensures State() == old(State()).ConnectionLost()
    {
      phase := Phase.Disconnected;
      bootstrapStateQueued := false;
      becameOnline := false;
    }

    predicate AcceptsState()
      reads this
      ensures AcceptsState() == State().AcceptsState()
    {
      phase.AwaitFreshState? || phase.Online?
    }

    /** Reads and clears the pending transition to online. */
    method JustBecameOnline() returns (just: bool)
      modifies this
      ensures just == old(becameOnline)
      ensures State() == old(State()).(becameOnline := false)
    {
      just := becameOnline;
      becameOnline := false;
    }
  }
}
