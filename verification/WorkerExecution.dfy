/** The worker's steps of the system are the cycles of its loop, and runs of the system take it through them. */
module WorkerExecution {
  import opened Wrappers
  import opened Watch
  import opened Client
  import opened System
  import opened Preservation
  import opened Liveness
  import opened Worker

  /** The worker's half of a state. */
  function Half(s: Sys): (w: WorkerCore) {
    WorkerCore(s.core.requests, s.core.states, s.workerSeen, s.collected, s.worker.Dead?)
  }

  /** A step that is not the worker's. */
  predicate Foreign(step: Step) {
    match step
    case Runs(daemon) =>
      daemon.SchedulerStart? || daemon.SchedulerTick? || daemon.SchedulerRequest? || daemon.SchedulerStop?
      || daemon.SignalShutdown?
    case _ => true
  }

  /** Steps of the other actors lead from `s` to `t`. */
  ghost predicate Led(s: Sys, t: Sys) {
    exists steps :: CanTake(s, steps) && t == After(s, steps) && AllForeign(steps)
  }

  ghost predicate AllForeign(steps: seq<Step>) {
    forall i :: 0 <= i < |steps| ==> Foreign(steps[i])
  }

  /** While other actors take steps from `s` to `t`, the worker's half sees these requests and nothing else. */
  ghost predicate Meanwhile(s: Sys, asks: seq<Ask>, t: Sys) {
    && Led(s, t)
    && t.worker == s.worker
    && Half(t) == Half(s).(requests := Asked(s.core.requests, asks, Busy(s.worker)))
  }

  lemma LedByStep(s: Sys, step: Step)
    requires Enabled(s, step) && Foreign(step)
    ensures Led(s, Apply(s, step))
  {
    hide Enabled, Apply, Foreign;
    assert [step][1..] == [] && CanTake(Apply(s, step), []);
    assert CanTake(s, [step]) && After(s, [step]) == Apply(s, step);
  }

  lemma LedFurther(s: Sys, t: Sys, u: Sys)
    requires Led(s, t) && Led(t, u)
    ensures Led(s, u)
  {
    hide Enabled, Apply, Foreign;
    var first :| CanTake(s, first) && t == After(s, first) && AllForeign(first);
    var second :| CanTake(t, second) && u == After(t, second) && AllForeign(second);
    Concatenate(s, first, second);
    assert AllForeign(first + second);
  }

  lemma OneAsk(slot: Slot<u64>, busy: bool)
    ensures Asked(slot, [], busy) == slot && Asked(slot, [Always], busy) == Requested(slot)
  {
    assert Asked(slot, [Always][..0], busy) == slot;
  }

  /** Whatever another actor does in one step is at most one request to the worker. */
  lemma ForeignStepsAsk(s: Sys, step: Step)
    requires Enabled(s, step) && Foreign(step)
    ensures Meanwhile(s, [], Apply(s, step)) || Meanwhile(s, [Always], Apply(s, step))
  {
    LedByStep(s, step);
    OneAsk(s.core.requests, Busy(s.worker));
    hide Asked, Led;
    match step {
      case Wakes(wake) =>
      case Acts(act) => ActFrame(s, act); hide AfterAct;
      case Carries(carry) =>
      case Runs(daemon) =>
    }
  }

  lemma {:induction false} AskedMore(slot: Slot<u64>, asks: seq<Ask>, more: seq<Ask>, busy: bool)
    ensures Asked(slot, asks + more, busy) == Asked(Asked(slot, asks, busy), more, busy)
    decreases |more|
  {
    if more == [] {
      assert asks + more == asks;
    } else {
      var shorter := more[..|more| - 1];
      assert (asks + more)[..|asks + more| - 1] == asks + shorter;
      AskedMore(slot, asks, shorter, busy);
    }
  }

  /** Requests of several steps add up. */
  lemma MeanwhileGoesOn(s: Sys, asks: seq<Ask>, t: Sys, more: seq<Ask>, u: Sys)
    requires Meanwhile(s, asks, t) && Meanwhile(t, more, u)
    ensures Meanwhile(s, asks + more, u)
  {
    hide Asked, Led;
    LedFurther(s, t, u);
    AskedMore(s.core.requests, asks, more, Busy(s.worker));
  }

  // ---- one cycle of the worker

  /** The end of a collection: its state is stored, or it fails. */
  function Hand(s: Sys, ok: bool): (t: Sys)
    requires s.worker.Collecting?
  {
    var collected := AfterRun(s, WorkerCollect(ok));
    if ok then AfterRun(collected, WorkerStore) else collected
  }

  /** The worker's steps of one cycle, with the requests of the others in between. */
  ghost predicate CycleSteps(s: Sys, cycle: Cycle, t: Sys) {
    && s.worker.Idle?
    && exists a ::
         && Meanwhile(s, cycle.waiting, a)
         && if !CanRun(a, WorkerWake) then t == a else Woken(a, cycle, t)
  }

  ghost predicate Woken(a: Sys, cycle: Cycle, t: Sys)
    requires CanRun(a, WorkerWake)
  {
    exists b ::
      && Meanwhile(AfterRun(a, WorkerWake), cycle.waking, b)
      && var read := AfterRun(b, WorkerRead);
         if read.worker.Idle? then t == read else Chosen(read, cycle, t)
  }

  ghost predicate Chosen(read: Sys, cycle: Cycle, t: Sys)
    requires read.worker.Chosen?
  {
    exists c, d, e ::
      && Meanwhile(read, cycle.choosing, c) && c.core.epoch == cycle.begunIn
      && Meanwhile(AfterRun(c, WorkerBegin), cycle.collecting, d)
      && Meanwhile(Hand(d, cycle.ok), cycle.storing, e)
      && t == AfterRun(e, WorkerClear)
  }

  /** A cycle of the system's worker computes what a cycle of the code's loop computes. */
  lemma CyclesAreSteps(s: Sys, cycle: Cycle, t: Sys)
    requires CycleSteps(s, cycle, t)
    ensures Half(t) == RunCycle(Half(s), cycle)
    ensures t.worker == if Half(t).failed then Dead else Idle
  {
    hide Asked, Led, Woken, RunWoken, AfterRun;
    var a :| Meanwhile(s, cycle.waiting, a) && if !CanRun(a, WorkerWake) then t == a else Woken(a, cycle, t);
    if CanRun(a, WorkerWake) {
      WokenComputes(a, cycle, t);
    }
  }

  lemma WokenComputes(a: Sys, cycle: Cycle, t: Sys)
    requires CanRun(a, WorkerWake) && Woken(a, cycle, t)
    ensures Half(t) == RunWoken(Half(a), cycle)
    ensures t.worker == if Half(t).failed then Dead else Idle
  {
    hide Asked, Led, Chosen;
    var b :| Meanwhile(AfterRun(a, WorkerWake), cycle.waking, b)
      && var read := AfterRun(b, WorkerRead);
         if read.worker.Idle? then t == read else Chosen(read, cycle, t);
    var read := AfterRun(b, WorkerRead);
    if !read.worker.Idle? {
      ChosenComputes(read, cycle, t);
    }
  }

  lemma ChosenComputes(read: Sys, cycle: Cycle, t: Sys)
    requires read.worker.Chosen? && Chosen(read, cycle, t)
    ensures
      var id := read.worker.id;
      var collecting := Asked(Asked(read.core.requests, cycle.choosing, false), cycle.collecting, true);
      var w1 := Half(read).(requests := Asked(collecting, cycle.storing, true));
      Half(t) == if cycle.ok then
          w1.(states := read.core.states.Replace(Some(Message(id, cycle.begunIn))), collected := read.collected + [id])
        else w1.(failed := true)
    ensures t.worker == if cycle.ok then Idle else Dead
  {
    hide Asked, Led;
  }

  /** The system runs the worker through some cycles. */
  ghost predicate CyclesTaken(s: Sys, cycles: seq<Cycle>, t: Sys)
    decreases |cycles|
  {
    if cycles == [] then t == s && s.worker.Idle?
    else
      exists u ::
        && CyclesTaken(s, cycles[..|cycles| - 1], u)
        && if u.worker.Dead? then t == u else CycleSteps(u, cycles[|cycles| - 1], t)
  }

  /** Any number of cycles: the system's worker is where the code's loop is. */
  lemma {:induction false} WorkerRunsAreCycles(s: Sys, cycles: seq<Cycle>, t: Sys)
    requires CyclesTaken(s, cycles, t)
    ensures Half(t) == RunCycles(Half(s), cycles)
    ensures t.worker == if Half(t).failed then Dead else Idle
    decreases |cycles|
  {
    hide RunCycle, CycleSteps;
    if cycles != [] {
      var shorter, last := cycles[..|cycles| - 1], cycles[|cycles| - 1];
      var u :| CyclesTaken(s, shorter, u) && if u.worker.Dead? then t == u else CycleSteps(u, last, t);
      WorkerRunsAreCycles(s, shorter, u);
      if !u.worker.Dead? {
        CyclesAreSteps(u, last, t);
      }
    }
  }

  // ---- runs of the system are cycles

  /**
   The next cycle as far as the worker has got: the requests of each gap, and the
   states in which it woke, read, began and had its result.
   */
  datatype Past = Past(
    waiting: seq<Ask>, woken: Sys, waking: seq<Ask>, read: Sys, choosing: seq<Ask>, begun: Sys, collecting: seq<Ask>,
    done: Sys, storing: seq<Ask>, ok: bool)
  {
    function AsCycle(): (cycle: Cycle) {
      Cycle(waiting, waking, choosing, collecting, storing, begun.core.epoch, ok)
    }
  }

  ghost predicate WasWoken(u: Sys, p: Past) {
    u.worker.Idle? && Meanwhile(u, p.waiting, p.woken) && CanRun(p.woken, WorkerWake)
  }

  ghost predicate HasRead(u: Sys, p: Past) {
    && WasWoken(u, p)
    && Meanwhile(AfterRun(p.woken, WorkerWake), p.waking, p.read)
    && AfterRun(p.read, WorkerRead).worker.Chosen?
  }

  ghost predicate HasBegun(u: Sys, p: Past) {
    HasRead(u, p) && Meanwhile(AfterRun(p.read, WorkerRead), p.choosing, p.begun)
  }

  /** A worker whose collection has a result it has not stored yet still counts as collecting. */
  function Unhanded(s: Sys): (s': Sys) {
    if s.worker.Collected? then s.(worker := Collecting(s.worker.id, s.worker.begunIn)) else s
  }

  /** The worker has finished whole cycles at `u`, and in `s` it has got so far with the next one. */
  ghost predicate InCycle(u: Sys, s: Sys, p: Past) {
    match s.worker
    case Idle => u.worker.Idle? && Meanwhile(u, p.waiting, s)
    case Woken => WasWoken(u, p) && Meanwhile(AfterRun(p.woken, WorkerWake), p.waking, s)
    case Chosen(_) => HasRead(u, p) && Meanwhile(AfterRun(p.read, WorkerRead), p.choosing, s)
    case Collecting(_, _) => InCollection(u, s, p)
    case Collected(_, _) => InCollection(u, Unhanded(s), p)
    case Stored => InStoring(u, s, p)
    case Failing => InStoring(u, s, p)
    case Dead => u.worker.Dead? && Meanwhile(u, p.waiting, s)
    case Finished =>
      && u.worker.Idle? && Meanwhile(u, p.waiting, p.woken) && CanRun(p.woken, WorkerEnd)
      && Meanwhile(AfterRun(p.woken, WorkerEnd), p.waking, s)
  }

  ghost predicate InCollection(u: Sys, s: Sys, p: Past) {
    HasBegun(u, p) && Meanwhile(AfterRun(p.begun, WorkerBegin), p.collecting, s)
  }

  ghost predicate InStoring(u: Sys, s: Sys, p: Past) {
    InCollection(u, p.done, p) && p.done.worker.Collecting? && Meanwhile(Hand(p.done, p.ok), p.storing, s)
  }

  function MoreAsks(worker: System.Worker, p: Past, more: seq<Ask>): (p': Past) {
    match worker
    case Woken => p.(waking := p.waking + more)
    case Chosen(_) => p.(choosing := p.choosing + more)
    case Collecting(_, _) => p.(collecting := p.collecting + more)
    case Collected(_, _) => p.(collecting := p.collecting + more)
    case Stored => p.(storing := p.storing + more)
    case Failing => p.(storing := p.storing + more)
    case Finished => p.(waking := p.waking + more)
    case _ => p.(waiting := p.waiting + more)
  }

  lemma MeanwhileKeeps(s: Sys, more: seq<Ask>, t: Sys)
    requires Meanwhile(s, more, t)
    ensures t.worker == s.worker
  {
  }

  /** Other actors cannot tell a worker that has its result from one that is still collecting. */
  lemma UnhandedStep(s: Sys, step: Step)
    requires Enabled(s, step) && Foreign(step)
    ensures Enabled(Unhanded(s), step) && Apply(Unhanded(s), step) == Unhanded(Apply(s, step))
  {
    hide AfterWake, AfterAct, AfterCarry, AfterRun, CanWake, CanAct, CanCarry, CanRun, Unhanded;
    match step {
      case Wakes(wake) => UnhandedWake(s, wake);
      case Acts(act) => UnhandedAct(s, act);
      case Carries(carry) => UnhandedCarry(s, carry);
      case Runs(daemon) => UnhandedRun(s, daemon);
    }
  }

  lemma UnhandedWake(s: Sys, wake: Wake)
    requires CanWake(s, wake)
    ensures CanWake(Unhanded(s), wake) && AfterWake(Unhanded(s), wake) == Unhanded(AfterWake(s, wake))
  {
  }

  lemma UnhandedCarry(s: Sys, carry: Carry)
    requires CanCarry(s, carry)
    ensures CanCarry(Unhanded(s), carry) && AfterCarry(Unhanded(s), carry) == Unhanded(AfterCarry(s, carry))
  {
    match carry {
      case Write(_) =>
      case ReceiveAck =>
      case Accept =>
      case Process =>
      case CloseSession =>
    }
  }

  lemma UnhandedRun(s: Sys, daemon: Daemon)
    requires CanRun(s, daemon) && Foreign(Runs(daemon))
    ensures CanRun(Unhanded(s), daemon) && AfterRun(Unhanded(s), daemon) == Unhanded(AfterRun(s, daemon))
  {
  }

  lemma UnhandedAct(s: Sys, act: Act)
    requires CanAct(s, act)
    ensures CanAct(Unhanded(s), act) && AfterAct(Unhanded(s), act) == Unhanded(AfterAct(s, act))
  {
    match act {
      case RequestFresh =>
      case EventPolled =>
      case PublishWoken =>
      case EndTurn =>
      case StartShutdown =>
      case DrainEvent =>
    }
  }

  lemma {:induction false} UnhandedPath(s: Sys, steps: seq<Step>)
    requires CanTake(s, steps) && AllForeign(steps)
    ensures CanTake(Unhanded(s), steps) && After(Unhanded(s), steps) == Unhanded(After(s, steps))
    decreases |steps|
  {
    hide Enabled, Apply, Foreign, Unhanded;
    if steps != [] {
      UnhandedStep(s, steps[0]);
      UnhandedPath(Apply(s, steps[0]), steps[1..]);
    }
  }

  lemma UnhandedAsks(s: Sys, more: seq<Ask>, t: Sys)
    requires Meanwhile(s, more, t)
    ensures Meanwhile(Unhanded(s), more, Unhanded(t))
  {
    var steps :| CanTake(s, steps) && t == After(s, steps) && AllForeign(steps);
    UnhandedPath(s, steps);
    hide Asked, AllForeign, CanTake, After;
  }

  lemma AskingGoesOn(u: Sys, s: Sys, p: Past, more: seq<Ask>, t: Sys)
    requires InCycle(u, s, p) && Meanwhile(s, more, t)
    ensures InCycle(u, t, MoreAsks(s.worker, p, more))
  {
    if s.worker.Collecting? || s.worker.Collected? || s.worker.Stored? || s.worker.Failing? {
      AskingWhileBusy(u, s, p, more, t);
    } else {
      MeanwhileKeeps(s, more, t);
      hide Led, Half, Meanwhile;
      match s.worker {
        case Idle => MeanwhileGoesOn(u, p.waiting, s, more, t);
        case Woken => MeanwhileGoesOn(AfterRun(p.woken, WorkerWake), p.waking, s, more, t);
        case Chosen(_) => MeanwhileGoesOn(AfterRun(p.read, WorkerRead), p.choosing, s, more, t);
        case Dead => MeanwhileGoesOn(u, p.waiting, s, more, t);
        case Finished => MeanwhileGoesOn(AfterRun(p.woken, WorkerEnd), p.waking, s, more, t);
        case _ =>
      }
    }
  }

  lemma AskingWhileBusy(u: Sys, s: Sys, p: Past, more: seq<Ask>, t: Sys)
    requires InCycle(u, s, p) && Meanwhile(s, more, t)
    requires s.worker.Collecting? || s.worker.Collected? || s.worker.Stored? || s.worker.Failing?
    ensures InCycle(u, t, MoreAsks(s.worker, p, more))
  {
    MeanwhileKeeps(s, more, t);
    hide InCollection, InStoring, Meanwhile, Unhanded;
    match s.worker {
      case Collecting(_, _) => CollectionGoesOn(u, s, p, more, t);
      case Collected(_, _) =>
        UnhandedAsks(s, more, t);
        CollectionGoesOn(u, Unhanded(s), p, more, Unhanded(t));
      case Stored => StoringGoesOn(u, s, p, more, t);
      case Failing => StoringGoesOn(u, s, p, more, t);
      case _ =>
    }
  }

  lemma CollectionGoesOn(u: Sys, s: Sys, p: Past, more: seq<Ask>, t: Sys)
    requires InCollection(u, s, p) && Meanwhile(s, more, t)
    ensures InCollection(u, t, p.(collecting := p.collecting + more))
  {
    MeanwhileGoesOn(AfterRun(p.begun, WorkerBegin), p.collecting, s, more, t);
    hide Meanwhile, HasRead;
  }

  lemma StoringGoesOn(u: Sys, s: Sys, p: Past, more: seq<Ask>, t: Sys)
    requires InStoring(u, s, p) && Meanwhile(s, more, t)
    ensures InStoring(u, t, p.(storing := p.storing + more))
  {
    MeanwhileGoesOn(Hand(p.done, p.ok), p.storing, s, more, t);
    hide Meanwhile, HasRead;
  }

  /** A step of another actor leaves the worker where it is, with at most one more request. */
  lemma ForeignKeepsCycle(u: Sys, s: Sys, p: Past, step: Step) returns (p': Past)
    requires InCycle(u, s, p) && Enabled(s, step) && Foreign(step)
    ensures InCycle(u, Apply(s, step), p')
  {
    ForeignStepsAsk(s, step);
    hide InCycle, Apply, Enabled, Meanwhile, MoreAsks;
    var more := if Meanwhile(s, [Always], Apply(s, step)) then [Always] else [];
    AskingGoesOn(u, s, p, more, Apply(s, step));
    p' := MoreAsks(s.worker, p, more);
  }

  /** The worker's steps that complete a cycle. */
  predicate Completes(s: Sys, daemon: Daemon) {
    daemon.WorkerClear? || (daemon.WorkerRead? && s.core.requests.value == 0)
  }

  function NextPast(s: Sys, daemon: Daemon, p: Past): (p': Past) {
    match daemon
    case WorkerWake => p.(woken := s, waking := [])
    case WorkerEnd => p.(woken := s, waking := [])
    case WorkerRead => p.(read := s, choosing := [])
    case WorkerBegin => p.(begun := s, collecting := [])
    case WorkerCollect(ok) => if ok then p else p.(done := s, storing := [], ok := false)
    case WorkerStore => p.(done := Unhanded(s), storing := [], ok := true)
    case _ => p
  }

  lemma NoAsks(s: Sys)
    ensures Meanwhile(s, [], s)
  {
    assert CanTake(s, []) && After(s, []) == s && AllForeign([]);
  }

  /** A step within a cycle. */
  lemma OwnKeepsCycle(u: Sys, s: Sys, p: Past, daemon: Daemon)
    requires InCycle(u, s, p) && CanRun(s, daemon) && !Foreign(Runs(daemon)) && !Completes(s, daemon)
    ensures InCycle(u, AfterRun(s, daemon), NextPast(s, daemon, p))
  {
    if daemon.WorkerCollect? || daemon.WorkerStore? {
      ResultKeepsCycle(u, s, p, daemon);
    } else {
      NoAsks(AfterRun(s, daemon));
      hide Asked, Led, InCollection, InStoring;
    }
  }

  /** The end of a collection. */
  lemma ResultKeepsCycle(u: Sys, s: Sys, p: Past, daemon: Daemon)
    requires InCycle(u, s, p) && CanRun(s, daemon) && (daemon.WorkerCollect? || daemon.WorkerStore?)
    ensures InCycle(u, AfterRun(s, daemon), NextPast(s, daemon, p))
  {
    hide InCycle;
    match daemon {
      case WorkerCollect(ok) =>
        if ok {
          SuccessKeepsCycle(u, s, p);
        } else {
          FailureKeepsCycle(u, s, p);
        }
      case WorkerStore => StoreKeepsCycle(u, s, p);
      case _ =>
    }
  }

  lemma SuccessKeepsCycle(u: Sys, s: Sys, p: Past)
    requires InCycle(u, s, p) && s.worker.Collecting?
    ensures InCycle(u, AfterRun(s, WorkerCollect(true)), p)
  {
    UnhandedAgain(s);
    hide InCollection, InStoring;
  }

  lemma FailureKeepsCycle(u: Sys, s: Sys, p: Past)
    requires InCycle(u, s, p) && s.worker.Collecting?
    ensures InCycle(u, AfterRun(s, WorkerCollect(false)), NextPast(s, WorkerCollect(false), p))
  {
    HandedOver(u, s, p, false);
    hide InCollection, InStoring;
  }

  lemma StoreKeepsCycle(u: Sys, s: Sys, p: Past)
    requires InCycle(u, s, p) && s.worker.Collected?
    ensures InCycle(u, AfterRun(s, WorkerStore), NextPast(s, WorkerStore, p))
  {
    StoreIsHand(s);
    HandedOver(u, Unhanded(s), p, true);
    hide InCollection, InStoring;
  }

  lemma StoreIsHand(s: Sys)
    requires s.worker.Collected?
    ensures Unhanded(s).worker.Collecting? && Hand(Unhanded(s), true) == AfterRun(s, WorkerStore)
  {
  }

  /** The moment a collection ends. */
  lemma HandedOver(u: Sys, d: Sys, p: Past, ok: bool)
    requires InCollection(u, d, p) && d.worker.Collecting?
    ensures InStoring(u, Hand(d, ok), p.(done := d, storing := [], ok := ok))
  {
    NoAsks(Hand(d, ok));
    hide Meanwhile, HasRead;
  }

  lemma UnhandedAgain(s: Sys)
    requires s.worker.Collecting?
    ensures Unhanded(AfterRun(s, WorkerCollect(true))) == s
  {
  }

  /** The step that completes a cycle. */
  lemma CycleCompletes(u: Sys, s: Sys, p: Past, daemon: Daemon)
    requires InCycle(u, s, p) && CanRun(s, daemon) && Completes(s, daemon)
    ensures CycleSteps(u, p.AsCycle(), AfterRun(s, daemon))
  {
    hide Asked, Led;
    if daemon.WorkerRead? {
      assert Woken(p.woken, p.AsCycle(), AfterRun(s, daemon));
    } else {
      var read := AfterRun(p.read, WorkerRead);
      assert Chosen(read, p.AsCycle(), AfterRun(s, daemon));
      assert Woken(p.woken, p.AsCycle(), AfterRun(s, daemon));
    }
  }

  lemma OneMoreCycle(start: Sys, cycles: seq<Cycle>, u: Sys, cycle: Cycle, t: Sys)
    requires CyclesTaken(start, cycles, u) && CycleSteps(u, cycle, t)
    ensures CyclesTaken(start, cycles + [cycle], t)
  {
    hide CycleSteps;
    assert (cycles + [cycle])[..|cycles|] == cycles;
    assert !u.worker.Dead? by { CycleStartsIdle(u, cycle, t); }
  }

  lemma CycleStartsIdle(u: Sys, cycle: Cycle, t: Sys)
    requires CycleSteps(u, cycle, t)
    ensures u.worker.Idle?
  {
  }

  /** A completed cycle leaves the worker idle or dead, at the start of the next one. */
  lemma NextCycle(u: Sys, cycle: Cycle, t: Sys, p: Past)
    requires CycleSteps(u, cycle, t)
    ensures InCycle(t, t, p.(waiting := []))
  {
    CyclesAreSteps(u, cycle, t);
    NoAsks(t);
  }

  /** One step of the system, of whichever actor. */
  lemma WorkerAdvances(start: Sys, cycles: seq<Cycle>, u: Sys, s: Sys, p: Past, step: Step)
    returns (cycles': seq<Cycle>, u': Sys, p': Past)
    requires CyclesTaken(start, cycles, u) && InCycle(u, s, p) && Enabled(s, step)
    ensures CyclesTaken(start, cycles', u') && InCycle(u', Apply(s, step), p')
  {
    cycles', u', p' := cycles, u, p;
    if Foreign(step) {
      hide InCycle, CyclesTaken, Apply, Enabled;
      p' := ForeignKeepsCycle(u, s, p, step);
    } else {
      hide InCycle, CyclesTaken, AfterRun, CanRun, CycleSteps;
      var daemon := step.daemon;
      if Completes(s, daemon) {
        u' := AfterRun(s, daemon);
        CycleCompletes(u, s, p, daemon);
        OneMoreCycle(start, cycles, u, p.AsCycle(), u');
        cycles' := cycles + [p.AsCycle()];
        NextCycle(u, p.AsCycle(), u', p);
        p' := p.(waiting := []);
      } else {
        OwnKeepsCycle(u, s, p, daemon);
        p' := NextPast(s, daemon, p);
      }
    }
  }

  /** Every run of the system takes the worker through whole cycles, and part of one. */
  lemma {:induction false} RunsAreCycles(start: Sys, cycles: seq<Cycle>, u: Sys, s: Sys, p: Past, steps: seq<Step>)
    returns (cycles': seq<Cycle>, u': Sys, p': Past)
    requires CyclesTaken(start, cycles, u) && InCycle(u, s, p) && CanTake(s, steps)
    ensures CyclesTaken(start, cycles', u') && InCycle(u', After(s, steps), p')
    decreases |steps|
  {
    hide InCycle, CyclesTaken, Apply, Enabled;
    cycles', u', p' := cycles, u, p;
    if steps != [] {
      cycles', u', p' := WorkerAdvances(start, cycles, u, s, p, steps[0]);
      cycles', u', p' := RunsAreCycles(start, cycles', u', Apply(s, steps[0]), p', steps[1..]);
    }
  }

  /**
   From an idle worker, whatever all actors do: the worker is where some cycles of the
   loop and part of the next one lead, with what those cycles compute.
   */
  lemma WorkerFollowsTheCode(s: Sys, steps: seq<Step>)
    returns (cycles: seq<Cycle>, u: Sys, p: Past)
    requires s.worker.Idle? && CanTake(s, steps)
    ensures CyclesTaken(s, cycles, u) && InCycle(u, After(s, steps), p)
    ensures Half(u) == RunCycles(Half(s), cycles)
  {
    hide Apply, Enabled, RunCycles;
    NoAsks(s);
    p := Past([], s, [], s, [], s, [], s, [], true);
    cycles, u, p := RunsAreCycles(s, [], s, s, p, steps);
    hide InCycle;
    WorkerRunsAreCycles(s, cycles, u);
  }

  /** In every reachable state the worker is where a run of its loop has got to, with what that run has computed. */
  lemma EveryWorkerStateIsTheLoops(s: Sys) returns (start: Sys, cycles: seq<Cycle>, u: Sys, p: Past)
    requires Reachable(s)
    ensures Init(start) && CyclesTaken(start, cycles, u) && InCycle(u, s, p)
    ensures Half(u) == RunCycles(WorkerCore(Slot(0, 0), Slot(None, 0), 0, [], false), cycles)
  {
    hide CyclesTaken, InCycle, RunCycles, BrokerOk;
    var steps :| ReachableBy(s, steps);
    start := RunTo(s, steps);
    cycles, u, p := WorkerFollowsTheCode(start, steps);
  }
}
