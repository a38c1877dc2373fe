/** Latest-value collection: what is collected, what is published, and that nothing gets stuck. */
module Freshness {
  import opened Wrappers
  import opened Watch
  import opened Client
  import opened System
  import opened Invariants
  import opened Reachability
  import opened CollectionPreservation
  import opened Theorems

  /** Every published state was collected after the acknowledgement of the connection that carries it. */
  lemma PublishedStatesAreFresh(s: Sys)
    requires Reachable(s) && BelowSaturation(s)
    ensures forall i :: 0 <= i < |s.core.published| ==>
      s.core.published[i].message.begunIn == s.core.published[i].connection
  {
    hide ControlOk, LinkOk, NetOk, BrokerOk, SlotsOk, IdsOk, Apply;
    InvariantAlways(s);
  }

  /** No state is published twice or out of order, across all connections of a run. */
  lemma NoReplay(s: Sys)
    requires Reachable(s) && BelowSaturation(s)
    ensures Increasing(PublishedIds(s.core.published))
  {
    hide ControlOk, LinkOk, NetOk, BrokerOk, SlotsOk, FreshOk, Apply;
    InvariantAlways(s);
  }

  /** Some request the worker has not finished with is at least `id`. */
  ghost predicate Owed(s: Sys, id: nat) {
    match s.worker
    case Idle => s.workerSeen < s.core.requests.version
    case Woken => true
    case Chosen(chosen) => id <= chosen || s.workerSeen < s.core.requests.version
    case Collecting(chosen, _) => id <= chosen || s.workerSeen < s.core.requests.version
    case Collected(chosen, _) => id <= chosen || s.workerSeen < s.core.requests.version
    case Stored => s.workerSeen < s.core.requests.version
    case _ => false
  }

  /**
   The collected identifiers are a strictly increasing selection of the issued
   ones, and every issued one is collected, superseded by a later collected one,
   or still owed by a worker that is alive.
   */
  lemma LatestValueWins(s: Sys, id: nat)
    requires Reachable(s) && BelowSaturation(s)
    requires 1 <= id <= s.core.requests.value
    ensures Increasing(s.collected)
    ensures forall i :: 0 <= i < |s.collected| ==> 1 <= s.collected[i] <= s.core.requests.value
    ensures id <= Last(s.collected) || Owed(s, id) || s.worker.Failing? || WorkerGone(s.worker)
  {
    hide ControlOk, LinkOk, NetOk, BrokerOk, FreshOk, Apply;
    InvariantAlways(s);
    forall i | 0 <= i < |s.collected|
      ensures s.collected[i] <= s.core.requests.value
    {
      LastIsGreatest(s.collected, i);
    }
  }

  /** At quiescence the slot holds the newest request's state. */
  lemma QuiescentSlotIsNewest(s: Sys)
    requires Reachable(s) && BelowSaturation(s)
    requires s.worker.Idle? && s.workerSeen == s.core.requests.version && s.core.requests.value != 0
    ensures s.core.states.value.Some? && s.core.states.value.value.requestId == s.core.requests.value
  {
    hide ControlOk, LinkOk, NetOk, BrokerOk, FreshOk, Apply;
    InvariantAlways(s);
  }

  /** A state the supervisor could publish is always one it has not seen, so its wait ends. */
  lemma NoLostWakeUp(s: Sys)
    requires Reachable(s) && BelowSaturation(s) && s.pc.Head?
    requires s.core.states.value.Some? && s.core.machine.Eligible(s.core.states.value.value.requestId)
    ensures CanWake(s, Wake.StatesChanged)
  {
    hide ControlOk, LinkOk, NetOk, BrokerOk, FreshOk, Apply;
    InvariantAlways(s);
  }

  /**
   Waiting for a fresh state with an idle worker that has seen every request: the state is
   there, and is published next.
   */
  lemma AwaitingNeverStarves(s: Sys)
    requires Reachable(s) && BelowSaturation(s) && s.pc.Head? && s.core.machine.phase.AwaitFreshState?
    requires s.worker.Idle? && s.workerSeen == s.core.requests.version
    ensures s.core.states.value.Some? && s.core.states.value.value.requestId >= s.core.machine.required
    ensures CanWake(s, Wake.StatesChanged)
    ensures var woken := AfterWake(s, Wake.StatesChanged);
      && CanAct(woken, PublishWoken)
      && AfterAct(woken, PublishWoken).core.published
         == s.core.published + [Published(s.core.states.value.value, s.core.epoch)]
  {
    AwaitingIsEnabled(s);
    QueueNeverRejects(s);
    hide Invariant, Apply, Enabled, StartBootstrap, HandleEvent, Settle, BeginShutdown;
    WokenPublishes(s);
  }

  /** An acknowledged connection has nothing to see in the slot: what is there was collected before it. */
  lemma StaleStatesAreSeen(s: Sys)
    requires Reachable(s) && CanWake(s, ConnAckPolled)
    ensures var t := AfterWake(s, ConnAckPolled);
      && t.core.seen == t.core.states.version && t.core.states == s.core.states
      && (BelowSaturation(s) && t.core.states.value.Some? ==>
            t.core.states.value.value.requestId < Requested(t.core.requests).value)
  {
    hide ControlOk, LinkOk, NetOk, BrokerOk, FreshOk, Apply, Enabled;
    InvariantAlways(s);
  }

  /** The turn that brings the session online publishes a newer state at once, and reports Online. */
  lemma GoingOnlinePublishes(s: Sys)
    requires Reachable(s) && CanAct(s, EndTurn) && s.core.machine.becameOnline
    requires s.core.states.value.Some? && s.core.states.value.value.requestId > s.core.machine.lastState
    ensures var t := AfterAct(s, EndTurn);
      && t.pc.Head? && t.core.status.Online? && t.core.machine.phase.StateQueued?
      && t.core.published == s.core.published + [Published(s.core.states.value.value, s.core.epoch)]
  {
    QueueNeverRejects(s);
    OnlineWhenAnnounced(s);
    hide Invariant, Reachable, Apply, Enabled, StartBootstrap, HandleEvent, BeginShutdown;
  }

  lemma OnlineWhenAnnounced(s: Sys)
    requires Reachable(s) && s.core.machine.becameOnline
    ensures s.core.machine.phase.Online?
  {
    hide LinkOk, NetOk, BrokerOk, SlotsOk, IdsOk, FreshOk, Apply, Enabled;
    InvariantAlways(s);
  }

  lemma WokenPublishes(s: Sys)
    requires CanWake(s, Wake.StatesChanged) && s.core.states.value.Some? && |s.core.queue| <= 2
    requires s.core.machine.Eligible(s.core.states.value.value.requestId)
    ensures var woken := AfterWake(s, Wake.StatesChanged);
      && CanAct(woken, PublishWoken)
      && AfterAct(woken, PublishWoken).core.published
         == s.core.published + [Published(s.core.states.value.value, s.core.epoch)]
  {
  }

  lemma AwaitingIsEnabled(s: Sys)
    requires Reachable(s) && BelowSaturation(s) && s.pc.Head? && s.core.machine.phase.AwaitFreshState?
    requires s.worker.Idle? && s.workerSeen == s.core.requests.version
    ensures s.core.states.value.Some? && s.core.states.value.value.requestId >= s.core.machine.required
    ensures CanWake(s, Wake.StatesChanged)
  {
    hide ControlOk, LinkOk, NetOk, BrokerOk, FreshOk, Apply;
    InvariantAlways(s);
    QuiescentSlotIsNewest(s);
    NoLostWakeUp(s);
  }
}
