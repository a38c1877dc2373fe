/** The invariant is inductive, so every reachable state satisfies it. */
module Reachability {
  import opened Client
  import opened System
  import opened Invariants
  import opened Preservation
  import opened BrokerPreservation
  import opened CollectionPreservation

  lemma NoEventsUnconnected(s: Sys)
    requires Agreed(s)
    ensures s.link.conn == 0 ==> s.link.events == []
    ensures s.link.conn != 0 ==> s.link.acks <= s.link.unacked
  {
  }

  lemma InvariantKeptByWake(s: Sys, wake: Wake)
    requires Invariant(s) && CanWake(s, wake)
    ensures Invariant(AfterWake(s, wake))
  {
    hide ControlOk, LinkOk, BrokerOk, NetOk, SlotsOk, IdsOk, FreshOk;
    NoEventsUnconnected(s);
    QueuesAreShort(s);
    ControlKeptByWake(s, wake);
    LinkKeptByWake(s, wake);
    AgreedKeptByWake(s, wake);
    SlotsKeptByWake(s, wake);
    if BelowSaturation(s) { CollectedKeptByWake(s, wake); }
  }

  lemma InvariantKeptByAct(s: Sys, act: Act)
    requires Invariant(s) && CanAct(s, act)
    ensures Invariant(AfterAct(s, act))
  {
    hide AfterAct, ControlOk, LinkOk, BrokerOk, NetOk, SlotsOk, IdsOk, FreshOk;
    NoEventsUnconnected(s);
    QueuesAreShort(s);
    ControlKeptByAct(s, act);
    LinkKeptByAct(s, act);
    AgreedKeptByAct(s, act);
    ActFrame(s, act);
    SlotsKeptByFrame(s, AfterAct(s, act));
    NeverFails(AfterAct(s, act));
    if BelowSaturation(AfterAct(s, act)) { CollectedKeptByAct(s, act); }
  }

  lemma NeverFails(s: Sys)
    requires Control(s)
    ensures !s.pc.Failed?
  {
  }

  lemma InvariantKeptByCarry(s: Sys, carry: Carry)
    requires Invariant(s) && CanCarry(s, carry)
    ensures Invariant(AfterCarry(s, carry))
  {
    hide ControlOk, LinkOk, BrokerOk, NetOk, SlotsOk, IdsOk, FreshOk;
    NoEventsUnconnected(s);
    QueuesAreShort(s);
    ControlKeptByCarry(s, carry);
    LinkKeptByCarry(s, carry);
    BrokerKeptByCarry(s, carry);
    AgreedKeptByCarry(s, carry);
    SlotsKeptByCarry(s, carry);
    if BelowSaturation(s) { CollectedKeptByCarry(s, carry); }
  }

  lemma InvariantKeptByRun(s: Sys, daemon: Daemon)
    requires Invariant(s) && CanRun(s, daemon)
    ensures Invariant(AfterRun(s, daemon))
  {
    hide ControlOk, LinkOk, BrokerOk, NetOk, SlotsOk, IdsOk, FreshOk;
    NoEventsUnconnected(s);
    QueuesAreShort(s);
    ControlKeptByRun(s, daemon);
    LinkKeptByRun(s, daemon);
    SlotsKeptByRun(s, daemon);
    if BelowSaturation(AfterRun(s, daemon)) { CollectedKeptByRun(s, daemon); }
  }

  lemma InvariantKept(s: Sys, step: Step)
    requires Invariant(s) && Enabled(s, step)
    ensures Invariant(Apply(s, step))
  {
    hide Invariant, AfterWake, AfterAct, AfterCarry, AfterRun;
    match step {
      case Wakes(wake) => InvariantKeptByWake(s, wake);
      case Acts(act) => InvariantKeptByAct(s, act);
      case Carries(carry) => InvariantKeptByCarry(s, carry);
      case Runs(daemon) => InvariantKeptByRun(s, daemon);
    }
  }

  lemma InvariantInitially(s: Sys)
    requires Init(s)
    ensures Invariant(s)
  {
  }

  lemma {:induction false} InvariantAlongRun(s: Sys, steps: seq<Step>)
    requires ReachableBy(s, steps)
    ensures Invariant(s)
    decreases |steps|
  {
    hide Invariant, Enabled, Apply, Init;
    if steps == [] {
      InvariantInitially(s);
    } else {
      var earlier, last := steps[..|steps| - 1], steps[|steps| - 1];
      var before :| ReachableBy(before, earlier) && Steps(before, last, s);
      InvariantAlongRun(before, earlier);
      InvariantKept(before, last);
    }
  }

  /** Every reachable state satisfies the invariant, and every step from it leads to such a state again. */
  lemma InvariantAlways(s: Sys)
    requires Reachable(s)
    ensures Invariant(s)
    ensures forall step :: Enabled(s, step) ==> Invariant(Apply(s, step))
  {
    hide Invariant, Enabled, Apply;
    var steps :| ReachableBy(s, steps);
    InvariantAlongRun(s, steps);
    forall step | Enabled(s, step)
      ensures Invariant(Apply(s, step))
    {
      InvariantKept(s, step);
    }
  }

  /** A broker nobody has used yet is one to start from. */
  lemma FreshBrokerIsOk(b: Broker)
    requires b.session == 0 && b.wire == [] && b.processed == [] && !b.availability.RetainedOnline?
    ensures BrokerOk(b)
  {
    assert b.processed + Actions(b.wire) == [];
  }

  /**
   A process started after another one has gone, killed or not, starts in an initial state,
   whatever its session is still doing.
   */
  lemma RestartIsInitial(s: Sys)
    requires Reachable(s)
    ensures Init(Sys(Head, INITIAL_CORE, NO_LINK, s.broker, NotStarted, Idle, 0, [], false))
  {
    hide ControlOk, LinkOk, NetOk, SlotsOk, IdsOk, FreshOk, Apply;
    InvariantAlways(s);
  }

  /** One more step from a reachable state. */
  lemma StepIsReachable(s: Sys, step: Step)
    requires Reachable(s) && Enabled(s, step)
    ensures Reachable(Apply(s, step)) && Invariant(Apply(s, step)) && !Apply(s, step).pc.Failed?
  {
    hide Invariant, Enabled, Apply;
    InvariantAlways(s);
    var steps :| ReachableBy(s, steps);
    var t := Apply(s, step);
    var longer := steps + [step];
    assert longer[..|steps|] == steps && Steps(s, step, t);
    assert ReachableBy(t, longer);
    NotFailed(t);
  }

  lemma NotFailed(s: Sys)
    requires Invariant(s)
    ensures !s.pc.Failed?
  {
    NeverFails(s);
  }
}
