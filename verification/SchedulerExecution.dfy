/** Runs of the system take the scheduler through the ticks of its loop. */
module SchedulerExecution {
  import opened Wrappers
  import opened Watch
  import opened System
  import opened Preservation
  import opened Liveness
  import opened Worker
  import opened WorkerExecution

  predicate OfScheduler(step: Step) {
    match step
    case Runs(daemon) =>
      daemon.SchedulerStart? || daemon.SchedulerTick? || daemon.SchedulerRequest? || daemon.SchedulerStop?
    case _ => false
  }

  // ---- what the other actors do in between

  /** Steps of the other actors lead from `s` to `t`; `n` of them request a collection. */
  ghost predicate Between(s: Sys, n: nat, t: Sys) {
    exists steps ::
      && CanTake(s, steps) && t == After(s, steps)
      && (forall i :: 0 <= i < |steps| ==> !OfScheduler(steps[i]))
      && t.scheduler == s.scheduler
      && t.core.requests == Asked(s.core.requests, Asking(n), false)
  }

  lemma NothingBetween(s: Sys)
    ensures Between(s, 0, s)
  {
    assert Asking(0) == [] && CanTake(s, []) && After(s, []) == s;
  }

  /** A step of another actor is at most one request to the scheduler's slot. */
  lemma OtherStepAsks(s: Sys, step: Step) returns (n: nat)
    requires Enabled(s, step) && !OfScheduler(step)
    ensures var t := Apply(s, step);
      t.scheduler == s.scheduler && t.core.requests == Asked(s.core.requests, Asking(n), false)
  {
    OneAsk(s.core.requests, false);
    assert Asking(0) == [] && Asking(1) == [Always];
    hide Asked, Asking;
    n := if Apply(s, step).core.requests == s.core.requests then 0 else 1;
    match step {
      case Wakes(wake) =>
      case Acts(act) =>
        ActFrame(s, act);
        hide AfterAct;
      case Carries(carry) =>
      case Runs(daemon) =>
    }
  }

  lemma AskingMore(slot: Slot<u64>, n: nat, m: nat)
    ensures Asked(Asked(slot, Asking(n), false), Asking(m), false) == Asked(slot, Asking(n + m), false)
  {
    AskedMore(slot, Asking(n), Asking(m), false);
    assert Asking(n) + Asking(m) == Asking(n + m);
  }

  lemma {:induction false} AlwaysIgnoresTheFlag(slot: Slot<u64>, n: nat, busy: bool)
    ensures Asked(slot, Asking(n), busy) == Asked(slot, Asking(n), false)
    decreases n
  {
    if n > 0 {
      assert Asking(n)[..n - 1] == Asking(n - 1);
      AlwaysIgnoresTheFlag(slot, n - 1, busy);
    }
  }

  lemma BetweenGoesOn(s: Sys, n: nat, t: Sys, step: Step) returns (m: nat)
    requires Between(s, n, t) && Enabled(t, step) && !OfScheduler(step)
    ensures Between(s, m, Apply(t, step))
  {
    hide Asked, Asking, Enabled, Apply, OfScheduler;
    var more := OtherStepAsks(t, step);
    m := n + more;
    AskingMore(s.core.requests, n, more);
    var steps :|
      && CanTake(s, steps) && t == After(s, steps)
      && (forall i :: 0 <= i < |steps| ==> !OfScheduler(steps[i]))
      && t.scheduler == s.scheduler
      && t.core.requests == Asked(s.core.requests, Asking(n), false);
    OneStep(t, step);
    Concatenate(s, steps, [step]);
    var longer := steps + [step];
    assert forall i :: 0 <= i < |longer| ==> !OfScheduler(longer[i]);
    assert CanTake(s, longer) && After(s, longer) == Apply(t, step);
  }

  lemma OneStep(s: Sys, step: Step)
    requires Enabled(s, step)
    ensures CanTake(s, [step]) && After(s, [step]) == Apply(s, step)
  {
    hide Enabled, Apply;
    assert [step][1..] == [];
    assert CanTake(Apply(s, step), []);
  }

  // ---- ticks

  /**
   A tick of the system's scheduler: it looks at the flag in `a`, and if the worker is
   idle it requests in `b`; other actors take steps before and in between.
   */
  ghost predicate TickSteps(s: Sys, tick: Tick, t: Sys) {
    if tick.busy then exists a :: BusyTick(s, tick.asked, a, t)
    else exists a: Sys, b: Sys, n: nat, m: nat :: tick.asked == n + m && IdleTick(s, n, a, m, b, t)
  }

  ghost predicate BusyTick(s: Sys, n: nat, a: Sys, t: Sys) {
    Between(s, n, a) && a.scheduler.Waiting? && Busy(a.worker) && t == AfterRun(a, SchedulerTick)
  }

  ghost predicate Decides(s: Sys, n: nat, a: Sys) {
    Between(s, n, a) && a.scheduler.Waiting? && !Busy(a.worker)
  }

  ghost predicate IdleTick(s: Sys, n: nat, a: Sys, m: nat, b: Sys, t: Sys) {
    Decides(s, n, a) && Between(AfterRun(a, SchedulerTick), m, b) && t == AfterRun(b, SchedulerRequest)
  }

  ghost predicate TicksTaken(s: Sys, ticks: seq<Tick>, t: Sys)
    decreases |ticks|
  {
    if ticks == [] then t == s
    else
      exists u {:trigger TicksTaken(s, ticks[..|ticks| - 1], u)} ::
        TicksTaken(s, ticks[..|ticks| - 1], u) && TickSteps(u, ticks[|ticks| - 1], t)
  }

  lemma BetweenAsks(s: Sys, n: nat, t: Sys)
    requires Between(s, n, t)
    ensures t.scheduler == s.scheduler && t.core.requests == Asked(s.core.requests, Asking(n), false)
  {
  }

  lemma TickAdds(s: Sys, tick: Tick, t: Sys)
    requires TickSteps(s, tick, t)
    ensures t.scheduler.Waiting?
    ensures t.core.requests ==
      var before := Asked(s.core.requests, Asking(tick.asked), tick.busy);
      if tick.busy then before else Requested(before)
  {
    hide Asked, Asking, Between;
    AlwaysIgnoresTheFlag(s.core.requests, tick.asked, tick.busy);
    if tick.busy {
      var a :| BusyTick(s, tick.asked, a, t);
      BetweenAsks(s, tick.asked, a);
    } else {
      var a: Sys, b: Sys, n: nat, m: nat :| tick.asked == n + m && IdleTick(s, n, a, m, b, t);
      IdleTickAdds(s, n, a, m, b, t);
    }
  }

  lemma IdleTickAdds(s: Sys, n: nat, a: Sys, m: nat, b: Sys, t: Sys)
    requires IdleTick(s, n, a, m, b, t)
    ensures t.scheduler.Waiting? && t.core.requests == Requested(Asked(s.core.requests, Asking(n + m), false))
  {
    hide Asked, Asking, Between;
    BetweenAsks(s, n, a);
    BetweenAsks(AfterRun(a, SchedulerTick), m, b);
    AskingMore(s.core.requests, n, m);
  }

  /** Any number of ticks of the system leaves the request slot as the loop's ticks do. */
  lemma {:induction false} TicksAreSteps(s: Sys, ticks: seq<Tick>, t: Sys)
    requires TicksTaken(s, ticks, t)
    ensures t.core.requests == Ticked(s.core.requests, ticks)
    ensures ticks != [] ==> t.scheduler.Waiting?
    decreases |ticks|
  {
    hide Asked, Asking, TickSteps;
    if ticks != [] {
      var shorter, last := ticks[..|ticks| - 1], ticks[|ticks| - 1];
      var u :| TicksTaken(s, shorter, u) && TickSteps(u, last, t);
      TicksAreSteps(s, shorter, u);
      TickAdds(u, last, t);
    }
  }

  // ---- runs of the system are ticks

  /**
   How far the scheduler has got since its last whole tick: requests of others, the state of
   its last step, and requests since.
   */
  datatype Pause = Pause(asked: nat, at: Sys, more: nat)

  ghost predicate InTick(u: Sys, s: Sys, p: Pause) {
    match s.scheduler
    case NotStarted => false
    case Waiting => Between(u, p.asked, s)
    case Decided => Decides(u, p.asked, p.at) && Between(AfterRun(p.at, SchedulerTick), p.more, s)
    case Halted =>
      || Between(u, p.asked, s)
      || (Between(u, p.asked, p.at) && CanRun(p.at, SchedulerStop)
          && Between(AfterRun(p.at, SchedulerStop), p.more, s))
  }

  /** The scheduler has not started yet, or started in `w`, taken these ticks up to `u`, and got so far since. */
  ghost predicate Scheduled(s0: Sys, w: Sys, ticks: seq<Tick>, u: Sys, s: Sys, p: Pause) {
    if s.scheduler.NotStarted? then Between(s0, p.asked, s)
    else
      && (exists n :: Between(s0, n, w)) && CanRun(w, SchedulerStart)
      && TicksTaken(AfterRun(w, SchedulerStart), ticks, u)
      && (w.shutdown ==> ticks == [] && s.scheduler.Halted?)
      && InTick(u, s, p)
  }

  lemma OthersKeepTick(u: Sys, s: Sys, p: Pause, step: Step) returns (p': Pause)
    requires InTick(u, s, p) && Enabled(s, step) && !OfScheduler(step)
    ensures InTick(u, Apply(s, step), p')
  {
    var _ := OtherStepAsks(s, step);
    hide Between, Apply, Enabled, OfScheduler;
    p' := p;
    if Between(u, p.asked, s) && !s.scheduler.Decided? {
      var n := BetweenGoesOn(u, p.asked, s, step);
      p' := p.(asked := n);
    } else if s.scheduler.Decided? {
      var m := BetweenGoesOn(AfterRun(p.at, SchedulerTick), p.more, s, step);
      p' := p.(more := m);
    } else {
      var m := BetweenGoesOn(AfterRun(p.at, SchedulerStop), p.more, s, step);
      p' := p.(more := m);
    }
  }

  lemma OneMoreTick(s: Sys, ticks: seq<Tick>, u: Sys, tick: Tick, t: Sys)
    requires TicksTaken(s, ticks, u) && TickSteps(u, tick, t)
    ensures TicksTaken(s, ticks + [tick], t)
  {
    hide TickSteps;
    assert (ticks + [tick])[..|ticks|] == ticks;
  }

  /** A step of the scheduler itself, once it has started. */
  lemma SchedulerStepKeeps(v: Sys, ticks: seq<Tick>, u: Sys, s: Sys, p: Pause, daemon: Daemon)
    returns (ticks': seq<Tick>, u': Sys, p': Pause)
    requires TicksTaken(v, ticks, u) && InTick(u, s, p)
    requires CanRun(s, daemon) && (daemon.SchedulerTick? || daemon.SchedulerRequest? || daemon.SchedulerStop?)
    ensures TicksTaken(v, ticks', u') && InTick(u', AfterRun(s, daemon), p')
    ensures !AfterRun(s, daemon).scheduler.NotStarted? && !s.scheduler.Halted?
  {
    var t := AfterRun(s, daemon);
    NothingBetween(t);
    hide Between, TicksTaken;
    ticks', u', p' := ticks, u, Pause(0, s, 0);
    match daemon {
      case SchedulerTick =>
        if Busy(s.worker) {
          var tick := Tick(p.asked, true, |ticks|);
          assert BusyTick(u, p.asked, s, t);
          OneMoreTick(v, ticks, u, tick, t);
          ticks', u' := ticks + [tick], t;
        } else {
          p' := Pause(p.asked, s, 0);
        }
      case SchedulerRequest =>
        var tick := Tick(p.asked + p.more, false, |ticks|);
        assert IdleTick(u, p.asked, p.at, p.more, s, t);
        OneMoreTick(v, ticks, u, tick, t);
        ticks', u' := ticks + [tick], t;
      case SchedulerStop =>
        p' := Pause(p.asked, s, 0);
      case _ =>
    }
  }

  lemma StartedAlready(s: Sys, daemon: Daemon)
    requires CanRun(s, daemon) && (daemon.SchedulerTick? || daemon.SchedulerRequest? || daemon.SchedulerStop?)
    ensures !s.scheduler.NotStarted?
  {
  }

  /** One step of the system, of whichever actor. */
  lemma SchedulerAdvances(s0: Sys, w: Sys, ticks: seq<Tick>, u: Sys, s: Sys, p: Pause, step: Step)
    returns (w': Sys, ticks': seq<Tick>, u': Sys, p': Pause)
    requires Scheduled(s0, w, ticks, u, s, p) && Enabled(s, step)
    ensures Scheduled(s0, w', ticks', u', Apply(s, step), p')
  {
    w', ticks', u', p' := w, ticks, u, p;
    if !OfScheduler(step) {
      var _ := OtherStepAsks(s, step);
      hide Between, TicksTaken, InTick, Apply, Enabled, OfScheduler;
      if s.scheduler.NotStarted? {
        var n := BetweenGoesOn(s0, p.asked, s, step);
        p' := p.(asked := n);
      } else {
        p' := OthersKeepTick(u, s, p, step);
      }
    } else if step.daemon.SchedulerStart? {
      w', ticks', u', p' := s, [], AfterRun(s, SchedulerStart), Pause(0, s, 0);
      NothingBetween(u');
      hide Between;
      assert Between(s0, p.asked, s);
    } else {
      hide Between, TicksTaken, InTick, AfterRun;
      StartedAlready(s, step.daemon);
      ticks', u', p' := SchedulerStepKeeps(AfterRun(w, SchedulerStart), ticks, u, s, p, step.daemon);
    }
  }

  /** Every run of the system takes the scheduler through whole ticks, and part of one. */
  lemma {:induction false} RunsAreTicks(s0: Sys, w: Sys, ticks: seq<Tick>, u: Sys, s: Sys, p: Pause, steps: seq<Step>)
    returns (w': Sys, ticks': seq<Tick>, u': Sys, p': Pause)
    requires Scheduled(s0, w, ticks, u, s, p) && CanTake(s, steps)
    ensures Scheduled(s0, w', ticks', u', After(s, steps), p')
    decreases |steps|
  {
    hide Scheduled, Apply, Enabled;
    w', ticks', u', p' := w, ticks, u, p;
    if steps != [] {
      w', ticks', u', p' := SchedulerAdvances(s0, w, ticks, u, s, p, steps[0]);
      w', ticks', u', p' := RunsAreTicks(s0, w', ticks', u', Apply(s, steps[0]), p', steps[1..]);
    }
  }

  /**
   From a scheduler that has not started, whatever all actors do: it has not started, or
   it is where the start and some ticks of its loop and part of the next one lead, with
   the request slot those leave.
   */
  lemma SchedulerFollowsTheCode(s: Sys, steps: seq<Step>)
    returns (w: Sys, ticks: seq<Tick>, u: Sys, p: Pause)
    requires s.scheduler.NotStarted? && CanTake(s, steps)
    ensures Scheduled(s, w, ticks, u, After(s, steps), p)
    ensures !After(s, steps).scheduler.NotStarted? ==>
      u.core.requests == if w.shutdown then w.core.requests else Ticked(Requested(w.core.requests), ticks)
  {
    hide Apply, Enabled, Ticked, Between, TicksTaken;
    NothingBetween(s);
    w, ticks, u, p := RunsAreTicks(s, s, [], s, s, Pause(0, s, 0), steps);
    if !After(s, steps).scheduler.NotStarted? {
      StartAsks(w);
      NoTicks(AfterRun(w, SchedulerStart), u);
      TicksAreSteps(AfterRun(w, SchedulerStart), ticks, u);
      NoTicksLeave(AfterRun(w, SchedulerStart).core.requests);
    }
  }

  lemma StartAsks(s: Sys)
    requires CanRun(s, SchedulerStart)
    ensures AfterRun(s, SchedulerStart).core.requests ==
      if s.shutdown then s.core.requests else Requested(s.core.requests)
  {
  }

  lemma NoTicks(v: Sys, u: Sys)
    ensures TicksTaken(v, [], u) ==> u == v
  {
  }

  lemma NoTicksLeave(slot: Slot<u64>)
    ensures Ticked(slot, []) == slot
  {
  }

  /** In every reachable state the scheduler is where a run of its loop has got to. */
  lemma EverySchedulerStateIsTheLoops(s: Sys)
    returns (start: Sys, w: Sys, ticks: seq<Tick>, u: Sys, p: Pause)
    requires Reachable(s)
    ensures Init(start) && Scheduled(start, w, ticks, u, s, p)
    ensures !s.scheduler.NotStarted? ==>
      u.core.requests == if w.shutdown then w.core.requests else Ticked(Requested(w.core.requests), ticks)
  {
    hide Scheduled, Ticked, BrokerOk;
    var steps :| ReachableBy(s, steps);
    start := RunTo(s, steps);
    w, ticks, u, p := SchedulerFollowsTheCode(start, steps);
  }
}
