/**
 Bounds that hold under every schedule: how many steps of the one kind are enough,
 however the steps of all other actors are mixed in.
 */
module Progress {
  import opened Wrappers
  import opened Protocol
  import opened Bootstrap
  import opened Client
  import opened System
  import opened Invariants
  import opened Preservation
  import opened Reachability
  import opened Theorems
  import opened Freshness
  import opened Liveness

  // ---- every issued request is collected or superseded

  predicate OfWorker(step: Step) {
    match step
    case Runs(daemon) =>
      daemon.WorkerWake? || daemon.WorkerRead? || daemon.WorkerBegin? || daemon.WorkerCollect? || daemon.WorkerStore?
      || daemon.WorkerClear?
    case _ => false
  }

  function WorkerSteps(steps: seq<Step>): (n: nat) {
    if steps == [] then 0 else (if OfWorker(steps[0]) then 1 else 0) + WorkerSteps(steps[1..])
  }

  /** The worker neither fails nor ends. */
  ghost predicate WorkerGoesOn(steps: seq<Step>) {
    forall i :: 0 <= i < |steps| ==> steps[i] != Runs(WorkerCollect(false)) && steps[i] != Runs(WorkerEnd)
  }

  /** Worker steps that are enough for `id` to be collected, or superseded by a later one. */
  function Due(s: Sys, id: nat): (n: nat)
    ensures n <= 9
  {
    if id <= Last(s.collected) then 0
    else
      match s.worker
      case Idle => 5
      case Woken => 4
      case Chosen(c) => if id <= c then 3 else 9
      case Collecting(c, _) => if id <= c then 2 else 8
      case Collected(c, _) => if id <= c then 1 else 7
      case Stored => 6
      case _ => 0
  }

  /** What one step does to the bound. */
  ghost predicate DueFalls(s: Sys, step: Step, id: nat, t: Sys) {
    && WorkerAble(t.worker) && id <= t.core.requests.value
    && Due(t, id) <= Due(s, id)
    && (OfWorker(step) && Due(s, id) > 0 ==> Due(t, id) < Due(s, id))
  }

  lemma DueFallsByRun(s: Sys, daemon: Daemon, id: nat)
    requires SlotsOk(s) && IdsOk(s) && CanRun(s, daemon) && WorkerAble(s.worker)
    requires 1 <= id <= s.core.requests.value && s.core.requests.value < U64_MAX
    requires daemon != WorkerCollect(false) && daemon != WorkerEnd
    ensures DueFalls(s, Runs(daemon), id, AfterRun(s, daemon))
  {
    match daemon {
      case SchedulerStart =>
      case SchedulerTick =>
      case SchedulerRequest =>
      case SchedulerStop =>
      case WorkerWake =>
      case WorkerRead =>
      case WorkerBegin =>
      case WorkerCollect(_) =>
      case WorkerStore =>
      case WorkerClear =>
      case WorkerEnd =>
      case SignalShutdown =>
    }
  }

  lemma DueFallsByStep(s: Sys, step: Step, id: nat)
    requires Invariant(s) && Enabled(s, step) && WorkerAble(s.worker) && BelowSaturation(s)
    requires 1 <= id <= s.core.requests.value
    requires step != Runs(WorkerCollect(false)) && step != Runs(WorkerEnd)
    ensures DueFalls(s, step, id, Apply(s, step))
  {
    hide ControlOk, LinkOk, BrokerOk, NetOk, SlotsOk, IdsOk, FreshOk, Quiet;
    match step {
      case Wakes(wake) =>
      case Acts(act) =>
        ActFrame(s, act);
        hide AfterAct;
      case Carries(carry) =>
      case Runs(daemon) =>
        hide AfterRun;
        DueFallsByRun(s, daemon, id);
    }
  }

  lemma RequestsGrow(s: Sys, step: Step)
    requires Enabled(s, step)
    ensures s.core.requests.value <= Apply(s, step).core.requests.value
  {
    match step {
      case Wakes(wake) =>
      case Acts(act) =>
        ActFrame(s, act);
        hide AfterAct;
      case Carries(carry) =>
      case Runs(daemon) =>
    }
  }

  lemma {:induction false} RequestsGrowAlong(s: Sys, steps: seq<Step>)
    requires CanTake(s, steps)
    ensures s.core.requests.value <= After(s, steps).core.requests.value
    decreases |steps|
  {
    hide Enabled, Apply;
    if steps != [] {
      RequestsGrow(s, steps[0]);
      RequestsGrowAlong(Apply(s, steps[0]), steps[1..]);
    }
  }

  /**
   Under every schedule, with requests landing at any time: as long as the worker
   neither fails nor ends, `Due(s, id)` of its steps, at most nine, are enough for an
   issued identifier to be collected or superseded by a later collected one.
   */
  lemma {:induction false} IssuedIsCollected(s: Sys, steps: seq<Step>, id: nat)
    requires Invariant(s) && WorkerAble(s.worker) && 1 <= id <= s.core.requests.value
    requires CanTake(s, steps) && BelowSaturation(After(s, steps)) && WorkerGoesOn(steps)
    requires WorkerSteps(steps) >= Due(s, id)
    ensures id <= Last(After(s, steps).collected)
    decreases |steps|
  {
    hide Enabled, Apply, Invariant, DueFalls;
    RequestsGrowAlong(s, steps);
    if steps == [] {
      NothingDue(s, id);
    } else {
      var t := Apply(s, steps[0]);
      assert steps[0] != Runs(WorkerCollect(false)) && steps[0] != Runs(WorkerEnd);
      DueFallsByStep(s, steps[0], id);
      DueFallen(s, steps[0], id, t);
      InvariantKept(s, steps[0]);
      IssuedIsCollected(t, steps[1..], id);
    }
  }

  lemma NothingDue(s: Sys, id: nat)
    requires Due(s, id) == 0 && WorkerAble(s.worker)
    ensures id <= Last(s.collected)
  {
  }

  lemma DueFallen(s: Sys, step: Step, id: nat, t: Sys)
    requires DueFalls(s, step, id, t)
    ensures WorkerAble(t.worker) && id <= t.core.requests.value
    ensures Due(t, id) <= if OfWorker(step) && Due(s, id) > 0 then Due(s, id) - 1 else Due(s, id)
  {
  }

  /** While a connection waits for its fresh state, that many worker steps put one into the slot. */
  lemma FreshStateArrives(s: Sys, steps: seq<Step>)
    requires Reachable(s) && WorkerAble(s.worker) && Bootstrapped(s.core.machine.phase)
    requires CanTake(s, steps) && BelowSaturation(After(s, steps)) && WorkerGoesOn(steps)
    requires WorkerSteps(steps) >= Due(s, s.core.machine.required)
    ensures var state := After(s, steps).core.states.value;
      state.Some? && state.value.requestId >= s.core.machine.required
  {
    hide Enabled, Apply, ControlOk, LinkOk, BrokerOk, NetOk, SlotsOk, FreshOk;
    InvariantAlways(s);
    RequestsGrowAlong(s, steps);
    IssuedIsCollected(s, steps, s.core.machine.required);
    InvariantAfter(s, steps);
    SlotHoldsLast(After(s, steps));
  }

  lemma SlotHoldsLast(s: Sys)
    requires SlotsOk(s)
    ensures Last(s.collected) > 0 ==>
        s.core.states.value.Some? && s.core.states.value.value.requestId == Last(s.collected)
  {
  }

  // ---- the bootstrap reaches the wait for a fresh state

  /** Steps that bring publishes and their acknowledgements on their way. */
  predicate Delivers(step: Step) {
    match step
    case Carries(carry) => carry.Write? || carry.ReceiveAck? || carry.Process?
    case Acts(act) => act.EventPolled? || act.DrainEvent?
    case _ => false
  }

  function Deliveries(steps: seq<Step>): (n: nat) {
    if steps == [] then 0 else (if Delivers(steps[0]) then 1 else 0) + Deliveries(steps[1..])
  }

  /** No loss of the connection, no takeover, no kill, no shutdown, and no deadline that ends one. */
  predicate Calm(step: Step) {
    match step
    case Wakes(wake) => !wake.PollError? && !wake.Killed? && !wake.DrainOver?
    case Acts(act) => !act.StartShutdown?
    case Carries(carry) => !carry.Accept? && !carry.CloseSession?
    case Runs(_) => true
  }

  ghost predicate AllCalm(steps: seq<Step>) {
    forall i :: 0 <= i < |steps| ==> Calm(steps[i])
  }

  /** Nothing is left to write, acknowledge, process or poll. */
  ghost predicate Stalled(s: Sys) {
    forall step :: Delivers(step) ==> !Enabled(s, step)
  }

  /** An upper bound on the delivery steps to come. */
  function Undelivered(s: Sys): (n: nat) {
    PhaseWeight(s.core.machine.phase)
    + 16 * |s.core.queue| + 8 * |s.broker.wire| + 4 * |s.link.acks| + 2 * |s.link.events|
  }

  ghost predicate UndeliveredFalls(s: Sys, step: Step, t: Sys) {
    Undelivered(t) <= Undelivered(s) - if Delivers(step) then 1 else 0
  }

  lemma CalmBootstrapWake(s: Sys, wake: Wake)
    requires Delivering(s) && !s.core.machine.phase.AwaitFreshState? && CanWake(s, wake) && Calm(Wakes(wake))
    ensures Delivering(AfterWake(s, wake)) && UndeliveredFalls(s, Wakes(wake), AfterWake(s, wake))
  {
    match wake {
      case ConnAckPolled =>
      case OtherPolled =>
      case PollError =>
      case BackoffOver =>
      case BackoffShutdown =>
      case StatesChanged =>
      case StatesClosed =>
      case DrainOver =>
      case Killed =>
    }
  }

  lemma CalmBootstrapAct(s: Sys, act: Act)
    requires Invariant(s) && Delivering(s) && CanAct(s, act) && Calm(Acts(act))
    ensures Delivering(AfterAct(s, act)) && UndeliveredFalls(s, Acts(act), AfterAct(s, act))
  {
    QueuesAreShort(s);
    hide LinkOk, NetOk, BrokerOk, ControlOk, SlotsOk, IdsOk, FreshOk;
    if act.EventPolled? {
      PollMoves(s);
    } else if act.EndTurn? {
      EndTurnMoves(s);
    }
    hide AfterAct;
  }

  lemma CalmCarry(s: Sys, carry: Carry)
    requires s.link.conn != 0 && s.link.conn == s.broker.session && CanCarry(s, carry) && Calm(Carries(carry))
    requires carry.Process? ==> !s.broker.wire[0].action.Disconnect?
    ensures var t := AfterCarry(s, carry);
      && UndeliveredFalls(s, Carries(carry), t)
      && t.pc == s.pc && t.core.machine == s.core.machine && t.broker.session == s.broker.session
      && t.link.conn == s.link.conn
  {
    CarryMoves(s, carry);
    hide AfterCarry;
  }

  lemma CalmRun(s: Sys, daemon: Daemon)
    requires CanRun(s, daemon)
    ensures var t := AfterRun(s, daemon);
      && UndeliveredFalls(s, Runs(daemon), t)
      && t.pc == s.pc && t.core.machine == s.core.machine && t.broker == s.broker && t.link == s.link
      && t.core.queue == s.core.queue
  {
    match daemon {
      case SchedulerStart =>
      case SchedulerTick =>
      case SchedulerRequest =>
      case SchedulerStop =>
      case WorkerWake =>
      case WorkerRead =>
      case WorkerBegin =>
      case WorkerCollect(_) =>
      case WorkerStore =>
      case WorkerClear =>
      case WorkerEnd =>
      case SignalShutdown =>
    }
  }

  lemma CalmBootstrapStep(s: Sys, step: Step)
    requires Invariant(s) && Delivering(s) && !s.core.machine.phase.AwaitFreshState?
    requires Enabled(s, step) && Calm(step)
    ensures Delivering(Apply(s, step)) && UndeliveredFalls(s, step, Apply(s, step))
  {
    hide LinkOk, NetOk, BrokerOk, ControlOk, SlotsOk, IdsOk, FreshOk, Undelivered, AfterAct, AfterCarry, AfterRun,
        AfterWake;
    match step {
      case Wakes(wake) => CalmBootstrapWake(s, wake);
      case Acts(act) => CalmBootstrapAct(s, act);
      case Carries(carry) =>
        if carry.Process? && s.broker.wire[0].action.Disconnect? {
          DisconnectOnWire(s);
        }
        CalmCarry(s, carry);
      case Runs(daemon) => CalmRun(s, daemon);
    }
  }

  /** Some state of the run waits for a fresh state on the same live session. */
  ghost predicate PassesTheWait(s: Sys, steps: seq<Step>)
    requires CanTake(s, steps)
    decreases |steps|
  {
    || (Delivering(s) && s.core.machine.phase.AwaitFreshState?)
    || (steps != [] && PassesTheWait(Apply(s, steps[0]), steps[1..]))
  }

  /**
   Every calm run of a bootstrap on a live session at whose end nothing is left to
   deliver, and no turn to finish, has passed the wait for a fresh state.
   */
  lemma {:induction false} BootstrapAlwaysReachesWait(s: Sys, steps: seq<Step>)
    requires Invariant(s) && Delivering(s)
    requires CanTake(s, steps) && AllCalm(steps)
    requires Stalled(After(s, steps)) && !Enabled(After(s, steps), Acts(EndTurn))
    ensures PassesTheWait(s, steps)
    decreases |steps|
  {
    hide Enabled, Apply, Invariant, Delivering;
    if !s.core.machine.phase.AwaitFreshState? {
      if steps == [] {
        var step := DeliveryMoves(s);
        assert false;
      } else {
        assert Calm(steps[0]);
        CalmBootstrapStep(s, steps[0]);
        InvariantKept(s, steps[0]);
        BootstrapAlwaysReachesWait(Apply(s, steps[0]), steps[1..]);
      }
    }
  }

  /** Until a calm run passes the wait, it takes no more deliveries than the bound at its start. */
  lemma {:induction false} DeliveriesBeforeWait(s: Sys, steps: seq<Step>)
    requires Invariant(s) && Delivering(s)
    requires CanTake(s, steps) && AllCalm(steps) && !PassesTheWait(s, steps)
    ensures Deliveries(steps) <= Undelivered(s)
    decreases |steps|
  {
    hide Enabled, Apply, Invariant, Delivering, Undelivered;
    if steps != [] {
      assert Calm(steps[0]);
      CalmBootstrapStep(s, steps[0]);
      InvariantKept(s, steps[0]);
      DeliveriesBeforeWait(Apply(s, steps[0]), steps[1..]);
    }
  }

  lemma DeliveryKeepsBootstrap(s: Sys, step: Step)
    requires Invariant(s) && Delivering(s) && Enabled(s, step) && Delivers(step)
    ensures Delivering(Apply(s, step)) && UndeliveredFalls(s, step, Apply(s, step)) && Calm(step)
  {
    hide LinkOk, NetOk, BrokerOk, ControlOk, SlotsOk, IdsOk, FreshOk, Undelivered, AfterAct, AfterCarry, AfterRun,
        AfterWake;
    match step {
      case Wakes(wake) =>
      case Acts(act) => CalmBootstrapAct(s, act);
      case Carries(carry) =>
        if carry.Process? && s.broker.wire[0].action.Disconnect? {
          DisconnectOnWire(s);
        }
        CalmCarry(s, carry);
      case Runs(daemon) =>
    }
  }

  /** From every state of a bootstrap on a live session such an end can be reached. */
  lemma {:induction false} BootstrapCanStall(s: Sys) returns (steps: seq<Step>)
    requires Invariant(s) && Delivering(s)
    ensures CanTake(s, steps) && AllCalm(steps)
    ensures Stalled(After(s, steps)) && !Enabled(After(s, steps), Acts(EndTurn))
    decreases 2 * Undelivered(s) + if s.pc.Settling? then 1 else 0
  {
    hide Enabled, Apply, Invariant, Undelivered, Delivers, Calm;
    if s.pc.Settling? {
      TurnCanEnd(s);
      InvariantKept(s, Acts(EndTurn));
      var rest := BootstrapCanStall(Apply(s, Acts(EndTurn)));
      steps := [Acts(EndTurn)] + rest;
    } else if step :| Delivers(step) && Enabled(s, step) {
      DeliveryKeepsBootstrap(s, step);
      InvariantKept(s, step);
      OneLess(s, step);
      var rest := BootstrapCanStall(Apply(s, step));
      steps := [step] + rest;
    } else {
      steps := [];
      OnlySettlingEnds(s);
    }
  }

  lemma OneLess(s: Sys, step: Step)
    requires Delivers(step) && Enabled(s, step) && UndeliveredFalls(s, step, Apply(s, step))
    ensures Undelivered(Apply(s, step)) < Undelivered(s)
  {
    hide Undelivered, Apply, Enabled;
  }

  lemma TurnCanEnd(s: Sys)
    requires Invariant(s) && Delivering(s) && s.pc.Settling?
    ensures Enabled(s, Acts(EndTurn)) && Calm(Acts(EndTurn))
    ensures var t := Apply(s, Acts(EndTurn)); Delivering(t) && t.pc.Head? && Undelivered(t) <= Undelivered(s)
  {
    CalmBootstrapAct(s, EndTurn);
    EndTurnLeaves(s);
    hide Invariant, AfterAct, Undelivered;
  }

  lemma EndTurnLeaves(s: Sys)
    requires CanAct(s, EndTurn)
    ensures !AfterAct(s, EndTurn).pc.Settling?
  {
  }

  lemma OnlySettlingEnds(s: Sys)
    requires !s.pc.Settling?
    ensures !Enabled(s, Acts(EndTurn))
  {
  }

  // ---- the bootstrap publishes

  /** A bootstrap on a live session, possibly on its way to look at the state slot. */
  ghost predicate Starting(s: Sys) {
    && (s.pc.Head? || s.pc.Settling? || s.pc.Waking?)
    && s.link.conn != 0 && s.link.conn == s.broker.session
    && Bootstrapped(s.core.machine.phase)
  }

  /** Something more than in `s` is published, and the first of it on the connection of `s`. */
  ghost predicate PublishedSince(s: Sys, t: Sys) {
    && s.core.published < t.core.published
    && t.core.published[|s.core.published|].connection == s.core.epoch
  }

  ghost predicate StartingOn(s: Sys, t: Sys) {
    Starting(t) && t.core.published == s.core.published && t.core.epoch == s.core.epoch
  }

  lemma StartingWake(s: Sys, wake: Wake)
    requires Starting(s) && CanWake(s, wake) && Calm(Wakes(wake))
    ensures StartingOn(s, AfterWake(s, wake))
  {
    match wake {
      case ConnAckPolled =>
      case OtherPolled =>
      case PollError =>
      case BackoffOver =>
      case BackoffShutdown =>
      case StatesChanged =>
      case StatesClosed =>
      case DrainOver =>
      case Killed =>
    }
  }

  lemma StartingPublish(s: Sys)
    requires Quiet(s) && Starting(s) && CanAct(s, PublishWoken)
    ensures StartingOn(s, AfterAct(s, PublishWoken)) || PublishedSince(s, AfterAct(s, PublishWoken))
  {
  }

  lemma StartingAct(s: Sys, act: Act)
    requires Invariant(s) && Starting(s) && CanAct(s, act) && Calm(Acts(act))
    ensures StartingOn(s, AfterAct(s, act)) || PublishedSince(s, AfterAct(s, act))
  {
    QueuesAreShort(s);
    hide LinkOk, NetOk, BrokerOk, ControlOk, SlotsOk, IdsOk, FreshOk;
    if act.EventPolled? {
      PollMoves(s);
    } else if act.EndTurn? {
      EndTurnMoves(s);
    } else {
      StartingPublish(s);
    }
    hide AfterAct;
  }

  lemma StartingStep(s: Sys, step: Step)
    requires Invariant(s) && Starting(s) && Enabled(s, step) && Calm(step)
    ensures StartingOn(s, Apply(s, step)) || PublishedSince(s, Apply(s, step))
  {
    hide LinkOk, NetOk, BrokerOk, ControlOk, SlotsOk, IdsOk, FreshOk, AfterAct, AfterCarry, AfterRun, AfterWake;
    match step {
      case Wakes(wake) => StartingWake(s, wake);
      case Acts(act) => StartingAct(s, act);
      case Carries(carry) =>
        if carry.Process? && s.broker.wire[0].action.Disconnect? {
          DisconnectOnWire(s);
        }
        CarryMoves(s, carry);
      case Runs(daemon) => StartingRun(s, daemon);
    }
  }

  lemma StartingRun(s: Sys, daemon: Daemon)
    requires Starting(s) && CanRun(s, daemon)
    ensures StartingOn(s, AfterRun(s, daemon))
  {
    match daemon {
      case SchedulerStart =>
      case SchedulerTick =>
      case SchedulerRequest =>
      case SchedulerStop =>
      case WorkerWake =>
      case WorkerRead =>
      case WorkerBegin =>
      case WorkerCollect(_) =>
      case WorkerStore =>
      case WorkerClear =>
      case WorkerEnd =>
      case SignalShutdown =>
    }
  }

  lemma PublishedStays(s: Sys, step: Step)
    requires Enabled(s, step)
    ensures s.core.published <= Apply(s, step).core.published
  {
    match step {
      case Wakes(wake) =>
      case Acts(act) => PublishedByAct(s, act);
      case Carries(carry) =>
      case Runs(daemon) =>
    }
  }

  lemma PublishedByAct(s: Sys, act: Act)
    requires CanAct(s, act)
    ensures s.core.published <= AfterAct(s, act).core.published
  {
    match act {
      case RequestFresh =>
      case EventPolled =>
      case PublishWoken =>
      case EndTurn =>
      case StartShutdown =>
      case DrainEvent =>
    }
  }

  lemma {:induction false} PublishedStaysAlong(s: Sys, t: Sys, steps: seq<Step>)
    requires PublishedSince(s, t) && CanTake(t, steps)
    ensures PublishedSince(s, After(t, steps))
    decreases |steps|
  {
    hide Enabled, Apply;
    if steps != [] {
      PublishedStays(t, steps[0]);
      PublishedStaysAlong(s, Apply(t, steps[0]), steps[1..]);
    }
  }

  /** Steps that nobody but the worker, the transport, the broker or the supervisor has to ask for. */
  predicate Pending(step: Step) {
    || Delivers(step) || step == Acts(EndTurn) || step == Acts(PublishWoken) || step == Wakes(Wake.StatesChanged)
    || (OfWorker(step) && step != Runs(WorkerCollect(false)))
  }

  /** Nothing that has begun is left to do. */
  ghost predicate Settled(s: Sys) {
    forall step :: Pending(step) ==> !Enabled(s, step)
  }

  /** While a bootstrap has not published, something is pending. */
  lemma StartingHasWork(s: Sys) returns (step: Step)
    requires Reachable(s) && BelowSaturation(s) && WorkerAble(s.worker) && Starting(s)
    ensures Pending(step) && Enabled(s, step)
  {
    hide Reachable, BelowSaturation, Invariant, Delivers, OfWorker;
    InvariantAlways(s);
    if s.pc.Waking? {
      step := Acts(PublishWoken);
    } else if s.pc.Settling? || !s.core.machine.phase.AwaitFreshState? {
      step := DeliveryMoves(s);
      DeliveryIsPending(step);
    } else if !s.worker.Idle? || s.workerSeen != s.core.requests.version {
      SlotsOfInvariant(s);
      WorkerMoves(s);
      step := Runs(WorkerStep(s));
      WorkerIsPending(s);
    } else {
      AwaitingNeverStarves(s);
      step := Wakes(Wake.StatesChanged);
    }
  }

  lemma DeliveryIsPending(step: Step)
    requires match step
      case Acts(act) => act.EndTurn? || act.EventPolled?
      case Carries(carry) => carry.Write? || carry.ReceiveAck? || carry.Process?
      case _ => false
    ensures Pending(step)
  {
  }

  lemma WorkerIsPending(s: Sys)
    ensures Pending(Runs(WorkerStep(s)))
  {
  }

  /**
   Every calm run of a bootstrap on a live session, below saturation and with an able
   worker at its end, at whose end nothing that has begun is left to do, has published
   a state on that connection.
   */
  lemma {:induction false} BootstrapAlwaysPublishes(s: Sys, steps: seq<Step>)
    requires Reachable(s) && Starting(s)
    requires CanTake(s, steps) && AllCalm(steps) && Settled(After(s, steps))
    requires BelowSaturation(After(s, steps)) && WorkerAble(After(s, steps).worker)
    ensures PublishedSince(s, After(s, steps))
    decreases |steps|
  {
    hide Enabled, Apply, Reachable, Invariant, Starting, Pending, BelowSaturation;
    if steps == [] {
      var step := StartingHasWork(s);
      assert false;
    } else {
      var t := Apply(s, steps[0]);
      assert Calm(steps[0]);
      InvariantAlways(s);
      StepIsReachable(s, steps[0]);
      StartingStep(s, steps[0]);
      if PublishedSince(s, t) {
        PublishedStaysAlong(s, t, steps[1..]);
      } else {
        BootstrapAlwaysPublishes(t, steps[1..]);
      }
    }
  }

  // Such an end can be reached: what has begun uses up work, and only bounded work follows from it.

  /** A session on its way to the first state or past it. */
  ghost predicate Serving(s: Sys) {
    && (s.pc.Head? || s.pc.Settling? || s.pc.Waking?)
    && s.link.conn != 0 && s.link.conn == s.broker.session
    && (Bootstrapped(s.core.machine.phase) || Streaming(s.core.machine.phase))
    && WorkerAble(s.worker)
  }

  /** The first state of the session has not been announced as the transition to online. */
  predicate Unannounced(m: Machine) {
    Bootstrapped(m.phase) || m.bootstrapStateQueued || m.becameOnline
  }

  function Weight(present: bool, weight: nat): (n: nat) {
    if present then weight else 0
  }

  function Unsettled(s: Sys): (n: nat) {
    200 * WorkLeft(s) + Weight(s.core.seen != s.core.states.version, 100) + Weight(s.pc.Waking?, 80)
    + Weight(Unannounced(s.core.machine), 60) + 2 * Undelivered(s) + Weight(s.pc.Settling?, 1)
  }

  ghost predicate Settles(s: Sys, t: Sys) {
    Serving(t) && Unsettled(t) < Unsettled(s) && t.core.requests == s.core.requests
  }

  lemma EventSettles(c: Core, event: Event)
    requires Bootstrapped(c.machine.phase) || Streaming(c.machine.phase)
    requires !event.OutgoingDisconnect? && |c.queue| <= 2
    ensures var r := HandleEvent(c, event);
      && r.Some? && (Bootstrapped(r.value.machine.phase) || Streaming(r.value.machine.phase))
      && r.value == c.(machine := r.value.machine, queue := r.value.queue, issued := r.value.issued)
      && (Unannounced(r.value.machine) ==> Unannounced(c.machine))
      && PhaseWeight(r.value.machine.phase) + 16 * |r.value.queue| <= PhaseWeight(c.machine.phase) + 16 * |c.queue|
  {
  }

  lemma PollSettles(s: Sys)
    requires Quiet(s) && Serving(s) && CanAct(s, EventPolled)
    ensures Settles(s, AfterAct(s, EventPolled))
  {
    hide HandleEvent;
    EventSettles(s.core, s.link.events[0]);
  }

  lemma PublishSettles(s: Sys)
    requires Quiet(s) && Serving(s) && CanAct(s, PublishWoken)
    ensures Settles(s, AfterAct(s, PublishWoken))
  {
    PublishCosts(s.core);
    hide PublishCurrentState, WorkLeft;
  }

  /** Looking at the slot publishes at most one state and leaves the slot seen. */
  lemma PublishCosts(c: Core)
    requires |c.queue| <= 2 && (Bootstrapped(c.machine.phase) || Streaming(c.machine.phase))
    ensures var r := PublishCurrentState(c);
      && r.Some? && (Bootstrapped(r.value.machine.phase) || Streaming(r.value.machine.phase))
      && r.value.seen == c.states.version && r.value.states == c.states && r.value.requests == c.requests
      && (Unannounced(r.value.machine) ==> Unannounced(c.machine))
      && |r.value.queue| <= |c.queue| + 1 && PhaseWeight(r.value.machine.phase) <= PhaseWeight(c.machine.phase)
  {
  }

  lemma EndTurnSettles(s: Sys)
    requires Quiet(s) && Control(s) && Serving(s) && CanAct(s, EndTurn)
    ensures Settles(s, AfterAct(s, EndTurn))
  {
    PublishCosts(s.core.(machine := s.core.machine.(becameOnline := false), status := Status.Online));
    hide PublishCurrentState, WorkLeft;
  }

  lemma WorkerSettles(s: Sys, daemon: Daemon)
    requires SlotsOk(s) && Serving(s) && CanRun(s, daemon) && Pending(Runs(daemon))
    ensures Settles(s, AfterRun(s, daemon)) && Calm(Runs(daemon))
  {
  }

  lemma CarrySettles(s: Sys, carry: Carry)
    requires Serving(s) && CanCarry(s, carry) && Delivers(Carries(carry))
    requires carry.Process? ==> !s.broker.wire[0].action.Disconnect?
    ensures Settles(s, AfterCarry(s, carry))
  {
    CalmCarry(s, carry);
    CarryMoves(s, carry);
    hide AfterCarry, Undelivered;
  }

  lemma ActSettles(s: Sys, act: Act)
    requires Quiet(s) && Control(s) && Serving(s) && CanAct(s, act) && Pending(Acts(act))
    ensures Settles(s, AfterAct(s, act)) && Calm(Acts(act))
  {
    hide ControlOk, AfterAct, Quiet, Settles;
    match act {
      case EventPolled => PollSettles(s);
      case PublishWoken => PublishSettles(s);
      case EndTurn => EndTurnSettles(s);
      case DrainEvent =>
      case _ =>
    }
  }

  lemma PendingCarrySettles(s: Sys, carry: Carry)
    requires Linked(s) && Agreed(s) && Serving(s) && CanCarry(s, carry) && Pending(Carries(carry))
    ensures Settles(s, AfterCarry(s, carry)) && Calm(Carries(carry))
  {
    hide LinkOk, NetOk, AfterCarry, Settles;
    if carry.Process? && s.broker.wire[0].action.Disconnect? {
      DisconnectOnWire(s);
    }
    CarrySettles(s, carry);
  }

  lemma PendingSettles(s: Sys, step: Step)
    requires Invariant(s) && Serving(s) && Enabled(s, step) && Pending(step)
    ensures Settles(s, Apply(s, step)) && Calm(step)
  {
    InvariantParts(s);
    SlotsOfInvariant(s);
    ShortQueues(s);
    hide Invariant, Control, Linked, Agreed, SlotsOk, AfterAct, AfterCarry, AfterRun, AfterWake, Quiet, Settles,
        Serving,
        Pending, Calm, CanAct, CanCarry, CanRun, CanWake;
    match step {
      case Wakes(wake) => WakeSettles(s, wake);
      case Acts(act) => ActSettles(s, act);
      case Carries(carry) => PendingCarrySettles(s, carry);
      case Runs(daemon) => WorkerSettles(s, daemon);
    }
  }

  lemma ShortQueues(s: Sys)
    requires Invariant(s)
    ensures Quiet(s)
  {
    hide ControlOk, LinkOk, BrokerOk, SlotsOk, IdsOk, FreshOk;
    QueuesAreShort(s);
  }

  lemma WakeSettles(s: Sys, wake: Wake)
    requires Serving(s) && CanWake(s, wake) && Pending(Wakes(wake))
    ensures Settles(s, AfterWake(s, wake)) && Calm(Wakes(wake))
  {
  }

  /** From every state of a session with an able worker a calm run settles it, without further requests. */
  lemma {:induction false} SessionCanSettle(s: Sys) returns (steps: seq<Step>)
    requires Invariant(s) && Serving(s)
    ensures CanTake(s, steps) && AllCalm(steps) && Settled(After(s, steps))
    ensures WorkerAble(After(s, steps).worker) && After(s, steps).core.requests == s.core.requests
    decreases Unsettled(s)
  {
    hide Enabled, Apply, Invariant, Pending, Unsettled, Calm;
    if step :| Pending(step) && Enabled(s, step) {
      PendingSettles(s, step);
      InvariantKept(s, step);
      var rest := SessionCanSettle(Apply(s, step));
      steps := [step] + rest;
    } else {
      steps := [];
    }
  }

  // ---- the shutdown tail ends

  /** The tail waits on the live session, or DISCONNECT is processed and only its own event is left to poll. */
  ghost predicate Tailing(s: Sys) {
    && s.pc.Draining? && s.link.conn != 0
    && (s.link.conn == s.broker.session
        || (s.broker.session == 0 && s.broker.availability.RetainedOffline?
            && s.core.machine.phase.DisconnectQueued? && s.core.queue == []))
  }

  lemma NothingReliableOnWire(s: Sys)
    requires Linked(s) && Agreed(s) && Withdrawing(s) && s.core.machine.phase.DisconnectQueued?
    ensures ReliablePackets(s.broker.wire) == []
  {
    hide TagsOk, PipeOk, StageAfter, AckOuts, Outs, Reliable;
    NothingUnacknowledged(s);
    assert |ReliablePackets(s.broker.wire)| <= |s.link.unacked|;
  }

  /** Of an order that is closed, a rest without QoS 1 publishes is the disconnect alone. */
  lemma ClosedRest(processed: seq<Action>, wire: seq<Packet>)
    requires StageAfter(processed + Actions(wire)).Closed? && wire != [] && ReliablePackets(wire) == []
    ensures wire[0].action.Disconnect?
  {
    var issued := processed + Actions(wire);
    var n := |issued|;
    AutomatonIsSound(issued);
    assert issued[n - 1] == Actions(wire)[|wire| - 1];
    if |wire| > 1 {
      assert issued[n - 2] == Actions(wire)[|wire| - 2];
      UnreliableActions(wire, |wire| - 2);
    }
  }

  /** With DISCONNECT written and every publish acknowledged, nothing but DISCONNECT itself is unprocessed. */
  lemma OnlyDisconnectOnWire(s: Sys)
    requires Linked(s) && Agreed(s) && BrokerOk(s.broker) && Withdrawing(s)
    requires s.core.machine.phase.DisconnectQueued? && s.core.queue == []
    ensures s.broker.wire != [] && s.broker.wire[0].action.Disconnect?
  {
    hide LinkOk, NetOk, BrokerOk, StageAfter, Actions, ReliablePackets;
    DisconnectIsSomewhere(s);
    NothingReliableOnWire(s);
    ClosedOnWire(s);
    ClosedRest(s.broker.processed, s.broker.wire);
  }

  lemma ClosedOnWire(s: Sys)
    requires Linked(s) && Agreed(s) && Withdrawing(s)
    requires s.core.machine.phase.DisconnectQueued? && s.core.queue == []
    ensures StageAfter(s.broker.processed + Actions(s.broker.wire)).Closed?
  {
    hide TagsOk, PipeOk, AwaitedOk, Actions, ReliablePackets, Reliable, StageAfter, Outs, AckOuts;
    assert s.broker.processed + Actions(s.broker.wire) + [] == s.broker.processed + Actions(s.broker.wire);
  }

  /** A disconnect event is polled only with "offline" retained. */
  lemma DisconnectPolled(s: Sys)
    requires Invariant(s) && Tailing(s) && s.link.events != [] && s.link.events[0].OutgoingDisconnect?
    ensures s.broker.availability.RetainedOffline?
  {
    hide ControlOk, LinkOk, BrokerOk, NetOk, SlotsOk, IdsOk, FreshOk;
    if s.link.conn == s.broker.session {
      PolledIsQueued(s);
      OnlyDisconnectOnWire(s);
      ProcessedFirst(s.broker);
      LiveSession(s.broker);
    }
  }

  lemma PolledIsQueued(s: Sys)
    requires Linked(s) && s.link.conn != 0 && s.link.events != [] && s.link.events[0].OutgoingDisconnect?
    ensures s.core.machine.phase.DisconnectQueued? && s.core.queue == []
  {
    var pipe := Pipe(s.link.events, s.core.queue);
    DisconnectHeadsPipe(s.link.events, s.core.queue);
    PipeIsShort(s.core.machine.phase, pipe);
    assert |pipe| == |Outs(s.link.events)| + |s.core.queue|;
    assert Outs(s.link.events) == OutOf(s.link.events[0]) + Outs(s.link.events[1..]);
  }

  /** The supervisor is gone and "offline" retained; of its session at most DISCONNECT is unprocessed. */
  ghost predicate Gone(s: Sys) {
    && s.pc.Exited? && s.link == NO_LINK && s.core.queue == [] && s.broker.availability.RetainedOffline?
    && (s.broker.session == 0 || (|s.broker.wire| == 1 && s.broker.wire[0].action.Disconnect?))
  }

  /** A calm step of the tail leads on with the tail, or out of it, and never adds to what is undelivered. */
  ghost predicate TailGoesOn(s: Sys, step: Step, t: Sys) {
    (Tailing(t) || Gone(t)) && UndeliveredFalls(s, step, t)
  }

  /** The disconnect's own event ends the tail. */
  lemma TailExits(s: Sys)
    requires Invariant(s) && Tailing(s) && CanAct(s, DrainEvent) && s.link.events[0].OutgoingDisconnect?
    ensures TailGoesOn(s, Acts(DrainEvent), AfterAct(s, DrainEvent))
  {
    hide ControlOk, LinkOk, BrokerOk, NetOk, SlotsOk, IdsOk, FreshOk;
    PolledIsQueued(s);
    DisconnectPolled(s);
    DisconnectStops(s);
    if s.broker.session != 0 {
      OnlyDisconnectOnWire(s);
      DisconnectOnWire(s);
      assert s.broker.wire == [s.broker.wire[0]] + s.broker.wire[1..];
    }
  }

  lemma CalmTailEvent(s: Sys)
    requires Invariant(s) && Tailing(s) && CanAct(s, DrainEvent)
    ensures TailGoesOn(s, Acts(DrainEvent), AfterAct(s, DrainEvent))
  {
    QueuesAreShort(s);
    hide LinkOk, BrokerOk, NetOk, SlotsOk, IdsOk, FreshOk;
    if s.link.events[0].OutgoingDisconnect? {
      TailExits(s);
    } else {
      if s.broker.session == 0 {
        OnlyDisconnectLeft(s);
      }
      DrainMoves(s);
    }
    hide AfterAct, Tailing, ControlOk;
  }

  lemma CalmTailProcess(s: Sys)
    requires Invariant(s) && Tailing(s) && CanCarry(s, Process) && s.broker.wire[0].action.Disconnect?
    ensures TailGoesOn(s, Carries(Process), AfterCarry(s, Process))
  {
    hide ControlOk, LinkOk, BrokerOk, NetOk, SlotsOk, IdsOk, FreshOk;
    DisconnectOnWire(s);
    ClosedIsQueued(s);
    ProcessedFirst(s.broker);
    LiveSession(s.broker);
  }

  lemma CalmTailCarry(s: Sys, carry: Carry)
    requires Invariant(s) && Tailing(s) && CanCarry(s, carry) && Calm(Carries(carry))
    ensures TailGoesOn(s, Carries(carry), AfterCarry(s, carry))
  {
    hide ControlOk, LinkOk, BrokerOk, NetOk, SlotsOk, IdsOk, FreshOk, AfterCarry;
    if s.broker.session == 0 {
      OnlyDisconnectLeft(s);
      NothingUnacknowledged(s);
      assert false;
    } else if carry.Process? && s.broker.wire[0].action.Disconnect? {
      CalmTailProcess(s);
    } else {
      CalmCarry(s, carry);
    }
  }

  lemma NothingUnacknowledged(s: Sys)
    requires Linked(s) && s.link.conn != 0 && s.core.machine.phase.DisconnectQueued?
    ensures s.link.unacked == []
  {
    hide TagsOk, AckOuts, Reliable, PipeOk;
    assert |Actions(s.link.unacked)| <= |Awaited(s.link.events, s.link.unacked, s.core.queue)|;
  }

  lemma CalmTailWake(s: Sys, wake: Wake)
    requires Tailing(s) && CanWake(s, wake) && Calm(Wakes(wake))
    ensures TailGoesOn(s, Wakes(wake), AfterWake(s, wake))
  {
    match wake {
      case ConnAckPolled =>
      case OtherPolled =>
      case PollError =>
      case BackoffOver =>
      case BackoffShutdown =>
      case StatesChanged =>
      case StatesClosed =>
      case DrainOver =>
      case Killed =>
    }
  }

  lemma CalmTailStep(s: Sys, step: Step)
    requires Invariant(s) && Tailing(s) && Enabled(s, step) && Calm(step)
    ensures TailGoesOn(s, step, Apply(s, step))
  {
    hide Invariant, TailGoesOn, AfterAct, AfterCarry, AfterWake;
    match step {
      case Wakes(wake) => CalmTailWake(s, wake);
      case Acts(act) => CalmTailEvent(s);
      case Carries(carry) => CalmTailCarry(s, carry);
      case Runs(daemon) => CalmTailRun(s, daemon);
    }
  }

  lemma CalmTailRun(s: Sys, daemon: Daemon)
    requires Tailing(s) && CanRun(s, daemon)
    ensures TailGoesOn(s, Runs(daemon), AfterRun(s, daemon))
  {
    CalmRun(s, daemon);
    hide AfterRun;
  }

  /** After the end only DISCONNECT can still be processed. */
  lemma CalmGoneStep(s: Sys, step: Step)
    requires Gone(s) && Enabled(s, step) && Calm(step)
    ensures TailGoesOn(s, step, Apply(s, step))
  {
    match step {
      case Wakes(wake) =>
      case Acts(act) =>
      case Carries(carry) =>
      case Runs(daemon) =>
        CalmRun(s, daemon);
        hide AfterRun;
    }
  }

  /** One calm step of the tail or after it. */
  lemma CalmEndStep(s: Sys, step: Step)
    requires Invariant(s) && (Tailing(s) || Gone(s)) && Enabled(s, step) && Calm(step)
    ensures TailGoesOn(s, step, Apply(s, step))
  {
    hide Invariant, TailGoesOn, Tailing, Gone, Enabled, Apply;
    if Tailing(s) {
      CalmTailStep(s, step);
    } else {
      CalmGoneStep(s, step);
    }
  }

  /** A queued request can be written, an acknowledgement on its way received. */
  lemma ClientMoves(s: Sys) returns (carry: Carry)
    requires s.link.conn != 0 && s.link.acks <= s.link.unacked && |s.link.unacked| <= 2
    requires s.core.queue != [] || s.link.acks != []
    ensures CanCarry(s, carry) && Delivers(Carries(carry)) && Calm(Carries(carry))
  {
    if s.link.acks != [] {
      carry := ReceiveAck;
    } else {
      var packetId := 0;
      if AtLeastOnce(s.core.queue[0]) { packetId := FreeId(s.link.unacked); }
      carry := Write(packetId);
    }
  }

  /** A tail without events on the live session has something on its way. */
  lemma TailHasWork(s: Sys)
    requires Invariant(s) && Tailing(s) && s.link.events == []
    ensures s.broker.session != 0 && (s.core.queue != [] || s.broker.wire != [] || s.link.acks != [])
  {
    QueuesAreShort(s);
    LeavingInTail(s);
    hide ControlOk, LinkOk, BrokerOk, NetOk, SlotsOk, IdsOk, FreshOk, Quiet;
    if s.broker.session == 0 {
      OnlyDisconnectLeft(s);
    } else {
      WithdrawalHasWork(s);
    }
  }

  lemma LeavingInTail(s: Sys)
    requires Control(s) && s.pc.Draining?
    ensures Leaving(s.core.machine.phase)
  {
  }

  lemma TailClientMoves(s: Sys) returns (carry: Carry)
    requires Invariant(s) && Tailing(s) && s.link.conn != 0
    requires s.link.events == [] && (s.broker.session != 0 ==> s.broker.wire == [])
    ensures CanCarry(s, carry) && Delivers(Carries(carry)) && Calm(Carries(carry))
  {
    hide Tailing, Control, Linked, Agreed, CanCarry, Delivers, Calm;
    TailHasWork(s);
    InvariantParts(s);
    LinkShape(s);
    carry := ClientMoves(s);
  }

  /** Until the end is complete something is left to deliver. */
  lemma TailDelivers(s: Sys) returns (step: Step)
    requires Invariant(s) && (Tailing(s) || (Gone(s) && s.broker.session != 0))
    ensures Enabled(s, step) && Delivers(step) && Calm(step)
  {
    hide Invariant, Tailing, Gone, CanCarry, CanAct, CanWake, CanRun;
    TailShape(s);
    if s.link.events != [] {
      step := Acts(DrainEvent);
    } else if s.broker.session != 0 && s.broker.wire != [] {
      step := Carries(Process);
    } else {
      var carry := TailClientMoves(s);
      step := Carries(carry);
    }
  }

  lemma TailShape(s: Sys)
    requires Tailing(s) || (Gone(s) && s.broker.session != 0)
    ensures s.link.events != [] ==> Tailing(s) && CanAct(s, DrainEvent)
    ensures s.broker.session != 0 && s.broker.wire != [] ==> CanCarry(s, Process)
    ensures s.broker.wire == [] ==> Tailing(s)
    ensures Tailing(s) ==> s.link.conn != 0
    ensures s.broker.session == 0 ==> Tailing(s)
  {
  }

  lemma InvariantParts(s: Sys)
    requires Invariant(s)
    ensures Control(s) && Linked(s) && Agreed(s)
  {
  }

  lemma LinkShape(s: Sys)
    requires Control(s) && Linked(s) && Agreed(s) && s.link.conn != 0
    ensures s.link.acks <= s.link.unacked && |s.link.unacked| <= 2
  {
    NoEventsUnconnected(s);
    QueuesAreShort(s);
  }

  /**
   Every calm run of a graceful shutdown on a live session at whose end nothing is left
   to deliver has ended: the supervisor is gone, its session closed by DISCONNECT, and
   "offline" retained.
   */
  lemma {:induction false} ShutdownAlwaysEnds(s: Sys, steps: seq<Step>)
    requires Invariant(s) && (Tailing(s) || Gone(s))
    requires CanTake(s, steps) && AllCalm(steps) && Stalled(After(s, steps))
    ensures var t := After(s, steps);
      t.pc.Exited? && t.broker.session == 0 && t.broker.availability.RetainedOffline?
    decreases |steps|
  {
    hide Enabled, Apply, Invariant, Tailing, Undelivered;
    if steps != [] {
      assert Calm(steps[0]);
      CalmEndStep(s, steps[0]);
      InvariantKept(s, steps[0]);
      ShutdownAlwaysEnds(Apply(s, steps[0]), steps[1..]);
    } else if Tailing(s) || s.broker.session != 0 {
      var step := TailDelivers(s);
      assert false;
    }
  }

  /** And no calm run of it takes more deliveries than the bound at its start. */
  lemma {:induction false} ShutdownIsBounded(s: Sys, steps: seq<Step>)
    requires Invariant(s) && (Tailing(s) || Gone(s))
    requires CanTake(s, steps) && AllCalm(steps)
    ensures Deliveries(steps) <= Undelivered(s)
    decreases |steps|
  {
    hide Enabled, Apply, Invariant, Tailing, Gone, Undelivered;
    if steps != [] {
      assert Calm(steps[0]);
      CalmEndStep(s, steps[0]);
      InvariantKept(s, steps[0]);
      ShutdownIsBounded(Apply(s, steps[0]), steps[1..]);
    }
  }

  /** From every state of it such an end can be reached. */
  lemma {:induction false} ShutdownCanStall(s: Sys) returns (steps: seq<Step>)
    requires Invariant(s) && (Tailing(s) || Gone(s))
    ensures CanTake(s, steps) && AllCalm(steps) && Stalled(After(s, steps))
    decreases Undelivered(s)
  {
    hide Enabled, Apply, Invariant, Tailing, Undelivered;
    if Tailing(s) || s.broker.session != 0 {
      var step := TailDelivers(s);
      CalmEndStep(s, step);
      InvariantKept(s, step);
      var rest := ShutdownCanStall(Apply(s, step));
      steps := [step] + rest;
    } else {
      steps := [];
      EndIsStalled(s);
    }
  }

  lemma EndIsStalled(s: Sys)
    requires Gone(s) && s.broker.session == 0
    ensures Stalled(s)
  {
  }
}
