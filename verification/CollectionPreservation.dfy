/** Request identifiers, stored states and published states, below saturation of the request counter. */
module CollectionPreservation {
  import opened Wrappers
  import opened Bootstrap
  import opened Client
  import opened System
  import opened Invariants

  ghost predicate Collected(s: Sys) {
    SlotsOk(s) && BelowSaturation(s) && IdsOk(s) && FreshOk(s)
  }

  lemma LastIsGreatest(xs: seq<nat>, i: nat)
    requires Increasing(xs) && i < |xs|
    ensures xs[i] <= Last(xs)
  {
  }

  lemma IncreasingAppend(xs: seq<nat>, x: nat)
    requires Increasing(xs) && Last(xs) < x
    ensures Increasing(xs + [x]) && Last(xs + [x]) == x
  {
  }

  lemma PublishedAppend(published: seq<Published>, p: Published)
    ensures PublishedIds(published + [p]) == PublishedIds(published) + [p.message.requestId]
  {
  }

  /** Reading the slot: an eligible state extends the published identifiers, any other is behind the machine. */
  lemma PublishKeepsCollected(s: Sys, c: Core, s': Sys)
    requires Collected(s)
    requires c == s.core.(machine := c.machine, status := c.status)
    requires c.machine == s.core.machine.(becameOnline := c.machine.becameOnline)
    requires c.machine.AcceptsState() && PublishCurrentState(c).Some?
    requires s' == s.(pc := s'.pc, core := PublishCurrentState(c).value)
    ensures Collected(s')
  {
    if s.collected != [] {
      LastIsGreatest(s.collected, |s.collected| - 1);
      var id := s.core.states.value.value.requestId;
      if c.machine.Eligible(id) {
        var p := Published(s.core.states.value.value, s.core.epoch);
        PublishedAppend(s.core.published, p);
        assert s.core.machine.lastState < id;
        IncreasingAppend(PublishedIds(s.core.published), id);
      }
    }
  }

  /** A fresh request is ahead of everything stored, being collected, published or seen. */
  lemma RequestKeepsCollected(s: Sys)
    requires Collected(s) && CanAct(s, RequestFresh) && s.core.machine.phase.Disconnected?
    requires BelowSaturation(AfterAct(s, RequestFresh))
    ensures Collected(AfterAct(s, RequestFresh))
  {
    if s.core.seen > 0 {
      LastIsGreatest(s.collected, s.core.seen - 1);
    }
  }

  /** Events and the start of a shutdown move the phase forward within its group, or out of both groups. */
  ghost predicate Advances(m: Machine, m': Machine) {
    && m'.required == m.required && m'.lastState == m.lastState
    && (Bootstrapped(m'.phase) ==> Bootstrapped(m.phase))
    && (Streaming(m'.phase) ==> Streaming(m.phase))
  }

  lemma EventsAdvance(c: Core, event: Event)
    ensures
      var r := HandleEvent(c, event);
      r.Some? ==>
        && Advances(c.machine, r.value.machine)
        && r.value == c.(machine := r.value.machine, queue := r.value.queue, issued := r.value.issued)
  {
  }

  lemma ShutdownAdvances(c: Core)
    ensures
      var (r, _) := BeginShutdown(c);
      r.Some? ==>
        && Advances(c.machine, r.value.machine)
        && r.value == c.(machine := r.value.machine, status := r.value.status, queue := r.value.queue,
                          issued := r.value.issued)
  {
  }

  lemma CollectedKeptByAdvance(s: Sys, s': Sys)
    requires Collected(s) && (s'.pc.Head? || s'.pc.Settling? ==> s.pc.Head?)
    requires Advances(s.core.machine, s'.core.machine)
    requires s'.core == s.core.(machine := s'.core.machine, status := s'.core.status, queue := s'.core.queue,
                                issued := s'.core.issued)
    requires s'.worker == s.worker && s'.workerSeen == s.workerSeen && s'.collected == s.collected
    ensures Collected(s')
  {
  }

  lemma CollectedKeptByEvents(s: Sys, act: Act)
    requires Collected(s) && CanAct(s, act) && (act.EventPolled? || act.DrainEvent?)
    requires HandleEvent(s.core, s.link.events[0]).Some?
    ensures Collected(AfterAct(s, act))
  {
    EventsAdvance(s.core, s.link.events[0]);
    CollectedKeptByAdvance(s, AfterAct(s, act));
  }

  lemma CollectedKeptByShutdown(s: Sys)
    requires Collected(s) && CanAct(s, StartShutdown) && BeginShutdown(s.core).0.Some?
    ensures Collected(AfterAct(s, StartShutdown))
  {
    ShutdownAdvances(s.core);
    CollectedKeptByAdvance(s, AfterAct(s, StartShutdown));
  }

  lemma CollectedKeptByEndTurn(s: Sys)
    requires Collected(s) && Control(s) && CanAct(s, EndTurn) && Settle(s.core).Some?
    ensures Collected(AfterAct(s, EndTurn))
  {
    if s.core.machine.becameOnline {
      var c := s.core.(machine := s.core.machine.(becameOnline := false), status := Status.Online);
      PublishKeepsCollected(s, c, AfterAct(s, EndTurn));
    }
  }

  lemma CollectedKeptByAct(s: Sys, act: Act)
    requires Collected(s) && Control(s) && CanAct(s, act)
    requires !AfterAct(s, act).pc.Failed? && BelowSaturation(AfterAct(s, act))
    ensures Collected(AfterAct(s, act))
  {
    match act {
      case RequestFresh => RequestKeepsCollected(s);
      case EventPolled => CollectedKeptByEvents(s, act);
      case PublishWoken => PublishKeepsCollected(s, s.core, AfterAct(s, act));
      case EndTurn => CollectedKeptByEndTurn(s);
      case StartShutdown => CollectedKeptByShutdown(s);
      case DrainEvent => CollectedKeptByEvents(s, act);
    }
  }

  lemma CollectedKeptByWake(s: Sys, wake: Wake)
    requires Collected(s) && Control(s) && CanWake(s, wake)
    ensures Collected(AfterWake(s, wake))
  {
    hide Increasing, PublishedIds;
    match wake {
      case ConnAckPolled =>
      case OtherPolled =>
      case PollError =>
      case BackoffOver =>
      case BackoffShutdown =>
      case StatesChanged =>
      case StatesClosed =>
      case DrainOver =>
      case Killed =>
    }
  }

  lemma CollectedKeptByCarry(s: Sys, carry: Carry)
    requires Collected(s) && CanCarry(s, carry)
    ensures Collected(AfterCarry(s, carry))
  {
    match carry {
      case Write(_) =>
      case ReceiveAck =>
      case Accept =>
      case Process =>
      case CloseSession =>
    }
  }

  lemma CollectedKeptByRun(s: Sys, daemon: Daemon)
    requires Collected(s) && CanRun(s, daemon) && BelowSaturation(AfterRun(s, daemon))
    ensures Collected(AfterRun(s, daemon))
  {
    hide Increasing, PublishedIds;
    match daemon {
      case SchedulerStart =>
      case SchedulerTick =>
      case SchedulerRequest =>
      case SchedulerStop =>
      case WorkerWake =>
      case WorkerRead =>
      case WorkerBegin =>
      case WorkerCollect(_) =>
      case WorkerStore => IncreasingAppend(s.collected, s.worker.id);
      case WorkerClear =>
      case WorkerEnd =>
      case SignalShutdown =>
    }
  }
}
