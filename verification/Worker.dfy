/** The collection worker and the collection scheduler as the code has them: loops over shared watch slots. */
module Worker {
  import opened Wrappers
  import opened Watch
  import opened Client

  // ---- what other tasks do to the request slot

  /** A request: unconditional, or by a timer tick that requests only if it finds the worker idle. */
  datatype Ask = Always | IfIdle

  function Asked(slot: Slot<u64>, asks: seq<Ask>, busy: bool): (next: Slot<u64>) {
    if asks == [] then slot
    else
      var before := Asked(slot, asks[..|asks| - 1], busy);
      if busy && asks[|asks| - 1].IfIdle? then before else Requested(before)
  }

  /** The flag that tells the scheduler whether a collection is running. */
  class BusyFlag {
    var value: bool

    constructor ()
      ensures !value
    {
      value := false;
    }
  }

  /** Other tasks request collections; ticks look at the flag. */
  method Others(requests: WatchSlot<u64>, busy: BusyFlag, asks: seq<Ask>)
    modifies requests
    ensures requests.Snapshot() == Asked(old(requests.Snapshot()), asks, busy.value)
  {
    var i := 0;
    while i < |asks|
      invariant 0 <= i <= |asks|
      invariant requests.Snapshot() == Asked(old(requests.Snapshot()), asks[..i], busy.value)
    {
      assert asks[..i + 1][..i] == asks[..i];
      if !(busy.value && asks[i].IfIdle?) {
        var _ := RequestCollection(requests);
      }
      i := i + 1;
    }
    assert asks[..i] == asks;
  }

  // ---- the worker

  /**
   One wake-up of the worker: what other tasks request while it waits, between
   waking and reading the identifier, before it sets the flag, while it collects,
   and before it clears the flag; and how the collection ends.
   */
  datatype Cycle = Cycle(
    waiting: seq<Ask>, waking: seq<Ask>, choosing: seq<Ask>, collecting: seq<Ask>, storing: seq<Ask>,
    begunIn: nat, ok: bool)

  /** The two slots, the request version the worker last marked as seen, and the identifiers it stored. */
  datatype WorkerCore = WorkerCore(
    requests: Slot<u64>, states: Slot<Option<Message>>, seen: nat, collected: seq<u64>, failed: bool)

  function RunCycle(w: WorkerCore, cycle: Cycle): (w': WorkerCore) {
    var waited := w.(requests := Asked(w.requests, cycle.waiting, false));
    if w.seen == waited.requests.version then waited else RunWoken(waited, cycle)
  }

  /** The rest of a cycle, once the worker has found a request it has not seen. */
  function RunWoken(w: WorkerCore, cycle: Cycle): (w': WorkerCore) {
    var read := Asked(w.requests, cycle.waking, false);
    if read.value == 0 then w.(requests := read, seen := read.version)
    else
      var collecting := Asked(Asked(read, cycle.choosing, false), cycle.collecting, true);
      var w1 := w.(requests := Asked(collecting, cycle.storing, true), seen := read.version);
      if cycle.ok then
        w1.(states := w.states.Replace(Some(Message(read.value, cycle.begunIn))),
            collected := w.collected + [read.value])
      else w1.(failed := true)
  }

  function RunCycles(w: WorkerCore, cycles: seq<Cycle>): (w': WorkerCore) {
    if cycles == [] then w
    else
      var before := RunCycles(w, cycles[..|cycles| - 1]);
      if before.failed then before else RunCycle(before, cycles[|cycles| - 1])
  }

  lemma {:induction false} FailureEndsIt(w: WorkerCore, cycles: seq<Cycle>, n: nat)
    requires n <= |cycles| && RunCycles(w, cycles[..n]).failed
    ensures RunCycles(w, cycles) == RunCycles(w, cycles[..n])
    decreases |cycles| - n
  {
    hide RunCycle;
    if n < |cycles| {
      assert cycles[..n + 1][..n] == cycles[..n];
      FailureEndsIt(w, cycles, n + 1);
    } else {
      assert cycles[..n] == cycles;
    }
  }

  ghost predicate Counts(slot: Slot<u64>) {
    slot.value == Min(slot.version, U64_MAX)
  }

  lemma {:induction false} AskingCounts(slot: Slot<u64>, asks: seq<Ask>, busy: bool)
    requires Counts(slot)
    ensures Counts(Asked(slot, asks, busy)) && Asked(slot, asks, busy).version >= slot.version
    decreases |asks|
  {
    if asks != [] {
      AskingCounts(slot, asks[..|asks| - 1], busy);
    }
  }

  /** What holds of the slots and the identifiers between two cycles. */
  ghost predicate InStep(start: nat, w: WorkerCore) {
    && Counts(w.requests) && start <= w.requests.version && w.seen <= w.requests.version
    && w.states.version == |w.collected| && (w.collected == [] <==> w.states.value.None?)
    && (w.collected != [] ==> w.states.value.value.requestId == Last(w.collected))
    && (w.requests.version < U64_MAX ==>
          && Increasing(w.collected)
          && (forall k :: 0 <= k < |w.collected| ==> 1 <= w.collected[k] <= w.seen)
          && (!w.failed ==> Last(w.collected) == w.seen))
  }

  lemma CycleKeepsStep(start: nat, w: WorkerCore, cycle: Cycle)
    requires InStep(start, w) && !w.failed
    ensures InStep(start, RunCycle(w, cycle))
    ensures RunCycle(w, cycle).failed ==> !cycle.ok
  {
    hide Asked;
    var waited := Asked(w.requests, cycle.waiting, false);
    AskingCounts(w.requests, cycle.waiting, false);
    var read := Asked(waited, cycle.waking, false);
    AskingCounts(waited, cycle.waking, false);
    var chosen := Asked(read, cycle.choosing, false);
    AskingCounts(read, cycle.choosing, false);
    var collecting := Asked(chosen, cycle.collecting, true);
    AskingCounts(chosen, cycle.collecting, true);
    AskingCounts(collecting, cycle.storing, true);
  }

  /** Over any cycles: strictly increasing identifiers below saturation, and the slot holds the last of them. */
  lemma {:induction false} CyclesKeepStep(w: WorkerCore, cycles: seq<Cycle>)
    requires Counts(w.requests) && w.states == Slot(None, 0) && w.seen == 0 && w.collected == [] && !w.failed
    ensures InStep(w.requests.version, RunCycles(w, cycles))
    ensures RunCycles(w, cycles).failed ==> exists i :: 0 <= i < |cycles| && !cycles[i].ok
    decreases |cycles|
  {
    hide RunCycle;
    if cycles != [] {
      var shorter := cycles[..|cycles| - 1];
      CyclesKeepStep(w, shorter);
      if RunCycles(w, shorter).failed {
        var i :| 0 <= i < |shorter| && !shorter[i].ok;
        assert !cycles[i].ok;
      } else {
        hide InStep;
        CycleKeepsStep(w.requests.version, RunCycles(w, shorter), cycles[|cycles| - 1]);
      }
    }
  }

  /**
   Collects the newest request each time there is one the worker has not seen;
   returns when a collection fails.  `collected` lists the identifiers it stored.
   The flag is set exactly while it collects and stores.
   */
  method CollectionWorker(
    requests: WatchSlot<u64>, states: WatchSlot<Option<Message>>, busy: BusyFlag, cycles: seq<Cycle>)
    returns (ok: bool, seen: nat, collected: seq<u64>)
    requires requests as object != states as object
    requires requests.value == Min(requests.version, U64_MAX)
    requires states.Snapshot() == Slot(None, 0) && !busy.value
    modifies requests, states, busy
    ensures WorkerCore(requests.Snapshot(), states.Snapshot(), seen, collected, !ok)
         == RunCycles(WorkerCore(old(requests.Snapshot()), Slot(None, 0), 0, [], false), cycles)
    ensures !busy.value
    ensures requests.version >= old(requests.version) && requests.value == Min(requests.version, U64_MAX)
    ensures states.version == |collected|
    ensures collected == [] <==> states.value.None?
    ensures collected != [] ==> states.value.value.requestId == Last(collected)
    ensures requests.value < U64_MAX ==>
      Increasing(collected) && forall i :: 0 <= i < |collected| ==> 1 <= collected[i] <= requests.value
    ensures requests.value < U64_MAX && ok ==> Last(collected) == seen <= requests.version
    ensures requests.value < U64_MAX && ok && seen == requests.version ==> Last(collected) == requests.value
    ensures !ok ==> exists i :: 0 <= i < |cycles| && !cycles[i].ok
  {
    hide Asked;
    ghost var start := WorkerCore(requests.Snapshot(), Slot(None, 0), 0, [], false);
    CyclesKeepStep(start, cycles);
    ok, seen, collected := true, 0, [];
    var i := 0;
    while i < |cycles|
      invariant 0 <= i <= |cycles| && ok && !busy.value
      invariant WorkerCore(requests.Snapshot(), states.Snapshot(), seen, collected, false)
             == RunCycles(start, cycles[..i])
    {
      var cycle := cycles[i];
      assert cycles[..i + 1][..i] == cycles[..i];
      i := i + 1;
      Others(requests, busy, cycle.waiting);
      if seen == requests.version {
        continue;
      }
      Others(requests, busy, cycle.waking);
      var requestId := requests.value;
      seen := requests.version;
      if requestId == 0 {
        continue;
      }
      Others(requests, busy, cycle.choosing);
      busy.value := true;
      Others(requests, busy, cycle.collecting);
      if cycle.ok {
        states.SendReplace(Some(Message(requestId, cycle.begunIn)));
        collected := collected + [requestId];
      }
      Others(requests, busy, cycle.storing);
      busy.value := false;
      if !cycle.ok {
        ok := false;
        FailureEndsIt(start, cycles, i);
        return;
      }
    }
    assert cycles[..i] == cycles;
  }

  // ---- the scheduler

  /**
   A timer tick: requests of the supervisor since the last one, whether the worker is busy,
   and the time in seconds.
   */
  datatype Tick = Tick(asked: nat, busy: bool, now: nat)

  /** Unconditional requests. */
  function Asking(n: nat): (asks: seq<Ask>) {
    seq(n, i => Always)
  }

  const BUSY_WARNING_INTERVAL: nat := 60

  /** The request slot after some ticks; only the idle ones add a request of the scheduler. */
  function Ticked(slot: Slot<u64>, ticks: seq<Tick>): (next: Slot<u64>) {
    if ticks == [] then slot
    else
      var tick := ticks[|ticks| - 1];
      var before := Asked(Ticked(slot, ticks[..|ticks| - 1]), Asking(tick.asked), tick.busy);
      if tick.busy then before else Requested(before)
  }

  /** Requests made since the start: those of the supervisor and one per idle tick. */
  function Requests(ticks: seq<Tick>): (n: nat) {
    if ticks == [] then 0
    else
      var tick := ticks[|ticks| - 1];
      Requests(ticks[..|ticks| - 1]) + tick.asked + if tick.busy then 0 else 1
  }

  lemma {:induction false} AskingAddsUp(slot: Slot<u64>, n: nat, busy: bool)
    requires Counts(slot)
    ensures Counts(Asked(slot, Asking(n), busy)) && Asked(slot, Asking(n), busy).version == slot.version + n
    decreases n
  {
    if n > 0 {
      assert Asking(n)[..n - 1] == Asking(n - 1);
      AskingAddsUp(slot, n - 1, busy);
    }
  }

  lemma {:induction false} TicksAddUp(slot: Slot<u64>, ticks: seq<Tick>)
    requires Counts(slot)
    ensures Counts(Ticked(slot, ticks)) && Ticked(slot, ticks).version == slot.version + Requests(ticks)
    decreases |ticks|
  {
    if ticks != [] {
      hide Asked;
      var tick, before := ticks[|ticks| - 1], Ticked(slot, ticks[..|ticks| - 1]);
      TicksAddUp(slot, ticks[..|ticks| - 1]);
      AskingAddsUp(before, tick.asked, tick.busy);
    }
  }

  ghost predicate Chronological(ticks: seq<Tick>) {
    forall i, j :: 0 <= i < j < |ticks| ==> ticks[i].now <= ticks[j].now
  }

  ghost predicate SpacedOut(warnings: seq<nat>) {
    forall i :: 0 < i < |warnings| ==> warnings[i - 1] + 60 <= warnings[i]
  }

  /** A busy tick is itself warned about or follows a warning by less than the interval. */
  ghost predicate Covered(tick: Tick, warnings: seq<nat>) {
    exists w :: w in warnings && w <= tick.now < w + 60
  }

  ghost predicate AllCovered(ticks: seq<Tick>, warnings: seq<nat>) {
    forall i :: 0 <= i < |ticks| && ticks[i].busy ==> Covered(ticks[i], warnings)
  }

  /** Every warning is the time of a tick that found the worker busy. */
  ghost predicate BusyOnly(ticks: seq<Tick>, warnings: seq<nat>) {
    forall w :: w in warnings ==> exists i :: 0 <= i < |ticks| && ticks[i].busy && ticks[i].now == w
  }

  lemma WarningBelongs(ticks: seq<Tick>, i: nat, warnings: seq<nat>, new_: seq<nat>)
    requires i < |ticks| && BusyOnly(ticks[..i], warnings)
    requires new_ == warnings || (ticks[i].busy && new_ == warnings + [ticks[i].now])
    ensures BusyOnly(ticks[..i + 1], new_)
  {
    var more := ticks[..i + 1];
    forall w | w in new_
      ensures exists k :: 0 <= k < |more| && more[k].busy && more[k].now == w
    {
      if w in warnings {
        var k :| 0 <= k < i && ticks[..i][k].busy && ticks[..i][k].now == w;
        assert more[k] == ticks[..i][k];
      } else {
        assert more[i] == ticks[i];
      }
    }
  }

  lemma OneMoreTick(ticks: seq<Tick>, i: nat, warnings: seq<nat>, new_: seq<nat>)
    requires i < |ticks| && AllCovered(ticks[..i], warnings) && warnings <= new_
    requires ticks[i].busy ==> Covered(ticks[i], new_)
    ensures AllCovered(ticks[..i + 1], new_)
  {
    forall k | 0 <= k < i && ticks[k].busy
      ensures Covered(ticks[k], new_)
    {
      assert ticks[..i][k] == ticks[k];
      var w :| w in warnings && w <= ticks[k].now < w + BUSY_WARNING_INTERVAL;
      assert w in new_;
    }
  }

  lemma NothingYet(ticks: seq<Tick>)
    ensures AllCovered(ticks[..0], []) && BusyOnly(ticks[..0], []) && BusyOnly(ticks, [])
  {
  }

  /** A busy tick warns, or the last warning covers it. */
  lemma LastCovers(tick: Tick, warnings: seq<nat>)
    requires warnings != []
    requires Last(warnings) <= tick.now < Last(warnings) + BUSY_WARNING_INTERVAL
    ensures Covered(tick, warnings)
  {
    assert Last(warnings) in warnings;
  }

  /**
   Requests once at the start and at every tick that finds the worker idle; a tick
   that finds it busy requests nothing and warns at most once per interval.
   */
  method CollectionScheduler(requests: WatchSlot<u64>, busy: BusyFlag, shutdownAlready: bool, ticks: seq<Tick>)
    returns (warnings: seq<nat>)
    requires requests.value == Min(requests.version, U64_MAX) && Chronological(ticks)
    modifies requests, busy
    ensures requests.value == Min(requests.version, U64_MAX)
    ensures requests.version == old(requests.version) + if shutdownAlready then 0 else 1 + Requests(ticks)
    ensures requests.Snapshot() ==
      if shutdownAlready then old(requests.Snapshot()) else Ticked(Requested(old(requests.Snapshot())), ticks)
    ensures SpacedOut(warnings) && BusyOnly(ticks, warnings)
    ensures !shutdownAlready ==> AllCovered(ticks, warnings)
  {
    hide AllCovered, Covered, Asked, BusyOnly;
    NothingYet(ticks);
    warnings := [];
    if shutdownAlready {
      return;
    }
    ghost var start := Requested(requests.Snapshot());
    TicksAddUp(start, ticks);
    var _ := RequestCollection(requests);
    var lastBusyWarning: Option<nat> := None;
    var i := 0;
    while i < |ticks|
      invariant 0 <= i <= |ticks|
      invariant requests.Snapshot() == Ticked(start, ticks[..i])
      invariant SpacedOut(warnings)
      invariant lastBusyWarning == if warnings == [] then None else Some(Last(warnings))
      invariant i > 0 ==> Last(warnings) <= ticks[i - 1].now
      invariant i == 0 ==> warnings == []
      invariant AllCovered(ticks[..i], warnings) && BusyOnly(ticks[..i], warnings)
    {
      var tick := ticks[i];
      ghost var before := warnings;
      assert ticks[..i + 1][..i] == ticks[..i];
      busy.value := tick.busy;
      Others(requests, busy, Asking(tick.asked));
      if busy.value {
        if lastBusyWarning.None? || tick.now - lastBusyWarning.value >= BUSY_WARNING_INTERVAL {
          warnings := warnings + [tick.now];
          lastBusyWarning := Some(tick.now);
        }
        LastCovers(tick, warnings);
      } else {
        var _ := RequestCollection(requests);
      }
      OneMoreTick(ticks, i, before, warnings);
      WarningBelongs(ticks, i, before, warnings);
      i := i + 1;
    }
    assert ticks[..i] == ticks;
  }
}
