/** The collector: eight independent measurements per cycle, and the CPU baseline that links the cycles. */
module Collector {
  import opened Wrappers
  import opened Cpu
  import Memory
  import Power

  // ---- what a cycle reads

  /** A file read and its parsed text; the difference between absent and unreadable matters to two metrics. */
  datatype File<+T> = Text(value: T) | Malformed | NotFound | Unreadable

  /** A firmware command and its parsed output. */
  datatype Command<+T> = Output(value: T) | BadOutput | CommandFailed

  datatype Load = Load(one: real, five: real, fifteen: real)

  datatype Disk = Disk(totalBytes: u64, availableBytes: u64, usedBytes: u64, usedPercent: real)

  /** Everything one cycle may read; the first CPU sample only when there is no baseline yet. */
  datatype Sources = Sources(
    firstStat: Option<CpuTimes>,
    stat: Option<CpuTimes>,
    loadavg: Option<Load>,
    thermalZone: File<real>,
    firmwareTemperature: Command<real>,
    scalingFrequency: File<real>,
    hardwareFrequency: File<real>,
    meminfo: Option<seq<string>>,
    uptime: Option<u64>,
    statvfs: Option<Disk>,
    throttled: Option<string>)

  // ---- what a cycle reports

  datatype Metric = CpuUsage | LoadAverage | Temperature | Frequency | MemoryAndSwap | Uptime | DiskSpace | PowerStatus

  datatype Reason = Unavailable | Inconsistent | ValueMalformed | FirmwareMalformed | FirmwareFailed | CannotRead

  datatype CollectorError = CollectorError(metric: Metric, reason: Reason)

  datatype Readings = Readings(
    usagePercent: Option<real>,
    load: Option<Load>,
    temperature: Option<real>,
    frequency: Option<real>,
    memory: Option<Memory.MemoryMetrics>,
    uptime: Option<u64>,
    disk: Option<Disk>,
    power: Option<Power.ThrottledStatus>)

  const UNAVAILABLE := Readings(None, None, None, None, None, None, None, None)

  /** The outcome of one metric: a value, nothing at all, or a recorded error. */
  datatype Measured<+T> = Value(value: T) | Absent | Failed(reason: Reason)
  {
    function Reading(): (r: Option<T>) {
      if Value? then Some(value) else None
    }

    function Error(): (e: Option<Reason>) {
      if Failed? then Some(reason) else None
    }
  }

  // ---- the metrics, each over the sources it may read

  function Simple<T>(source: Option<T>): (m: Measured<T>) {
    match source
    case Some(v) => Value(v)
    case None => Failed(Unavailable)
  }

  function MeasureTemperature(zone: File<real>, firmware: Command<real>): (m: Measured<real>) {
    match zone
    case Text(v) => Value(v)
    case Malformed => Failed(ValueMalformed)
    case Unreadable => Failed(CannotRead)
    case NotFound =>
      match firmware
      case Output(v) => Value(v)
      case BadOutput => Failed(FirmwareMalformed)
      case CommandFailed => Failed(FirmwareFailed)
  }

  function MeasureFrequency(files: seq<File<real>>): (m: Measured<real>) {
    if files == [] then Absent
    else
      match files[0]
      case Text(v) => Value(v)
      case Malformed => Failed(ValueMalformed)
      case Unreadable => Failed(CannotRead)
      case NotFound => MeasureFrequency(files[1..])
  }

  function MeasureMemory(meminfo: Option<seq<string>>): (m: Measured<Memory.MemoryMetrics>) {
    if meminfo.None? then Failed(Unavailable)
    else
      match Memory.ParseMeminfo(meminfo.value)
      case Success(v) => Value(v)
      case Failure(_) => Failed(Unavailable)
  }

  function MeasurePower(throttled: Option<string>): (m: Measured<Power.ThrottledStatus>) {
    if throttled.None? then Failed(Unavailable)
    else
      match Power.ParseThrottled(throttled.value)
      case Success(v) => Value(v)
      case Failure(_) => Failed(Unavailable)
  }

  /** The usage, the baseline left for the next cycle, and whether the collector slept for a useful delta. */
  datatype CpuPart = CpuPart(usage: Measured<real>, baseline: Option<CpuTimes>, slept: bool)

  function MeasureCpu(previous: Option<CpuTimes>, firstStat: Option<CpuTimes>, stat: Option<CpuTimes>): (p: CpuPart) {
    var baseline := if previous.Some? then previous else firstStat;
    var slept := previous.None? && firstStat.Some?;
    if baseline.None? then CpuPart(Failed(Unavailable), None, false)
    else if stat.None? then CpuPart(Failed(Unavailable), baseline, slept)
    else
      match UsagePercent(baseline.value, stat.value)
      case Success(Some(v)) => CpuPart(Value(v), stat, slept)
      case Success(None) => CpuPart(Absent, stat, slept)
      case Failure(_) => CpuPart(Failed(Inconsistent), stat, slept)
  }

  // ---- one cycle

  const METRICS := [CpuUsage, LoadAverage, Temperature, Frequency, MemoryAndSwap, Uptime, DiskSpace, PowerStatus]

  function Error(previous: Option<CpuTimes>, s: Sources, metric: Metric): (e: Option<Reason>) {
    match metric
    case CpuUsage => MeasureCpu(previous, s.firstStat, s.stat).usage.Error()
    case LoadAverage => Simple(s.loadavg).Error()
    case Temperature => MeasureTemperature(s.thermalZone, s.firmwareTemperature).Error()
    case Frequency => MeasureFrequency([s.scalingFrequency, s.hardwareFrequency]).Error()
    case MemoryAndSwap => MeasureMemory(s.meminfo).Error()
    case Uptime => Simple(s.uptime).Error()
    case DiskSpace => Simple(s.statvfs).Error()
    case PowerStatus => MeasurePower(s.throttled).Error()
  }

  function Pushed(errors: seq<CollectorError>, metric: Metric, reason: Option<Reason>): (r: seq<CollectorError>) {
    match reason
    case None => errors
    case Some(why) => errors + [CollectorError(metric, why)]
  }

  /** The errors of the first `n` metrics, in the order of collection. */
  function Errors(previous: Option<CpuTimes>, s: Sources, n: nat): (errors: seq<CollectorError>)
    requires n <= |METRICS|
  {
    if n == 0 then []
    else Pushed(Errors(previous, s, n - 1), METRICS[n - 1], Error(previous, s, METRICS[n - 1]))
  }

  function Measure(previous: Option<CpuTimes>, s: Sources): (r: Readings) {
    Readings(
      MeasureCpu(previous, s.firstStat, s.stat).usage.Reading(),
      Simple(s.loadavg).Reading(),
      MeasureTemperature(s.thermalZone, s.firmwareTemperature).Reading(),
      MeasureFrequency([s.scalingFrequency, s.hardwareFrequency]).Reading(),
      MeasureMemory(s.meminfo).Reading(),
      Simple(s.uptime).Reading(),
      Simple(s.statvfs).Reading(),
      MeasurePower(s.throttled).Reading())
  }

  lemma NoErrorsYet(previous: Option<CpuTimes>, s: Sources)
    ensures Errors(previous, s, 0) == []
  {
  }

  lemma ErrorsWith(previous: Option<CpuTimes>, s: Sources, metric: Metric)
    ensures Errors(previous, s, Rank(metric) + 1)
         == Pushed(Errors(previous, s, Rank(metric)), metric, Error(previous, s, metric))
  {
  }

  /** The errors of a cycle, pushed one metric after the other. */
  lemma AllErrors(previous: Option<CpuTimes>, s: Sources)
    ensures Errors(previous, s, |METRICS|) ==
      var e1 := Pushed([], CpuUsage, MeasureCpu(previous, s.firstStat, s.stat).usage.Error());
      var e2 := Pushed(e1, LoadAverage, Simple(s.loadavg).Error());
      var e3 := Pushed(e2, Temperature, MeasureTemperature(s.thermalZone, s.firmwareTemperature).Error());
      var e4 := Pushed(e3, Frequency, MeasureFrequency([s.scalingFrequency, s.hardwareFrequency]).Error());
      var e5 := Pushed(e4, MemoryAndSwap, MeasureMemory(s.meminfo).Error());
      var e6 := Pushed(e5, Uptime, Simple(s.uptime).Error());
      var e7 := Pushed(e6, DiskSpace, Simple(s.statvfs).Error());
      Pushed(e7, PowerStatus, MeasurePower(s.throttled).Error())
  {
    hide Pushed, Errors, MeasureCpu, MeasureTemperature, MeasureFrequency, MeasureMemory, MeasurePower;
    NoErrorsYet(previous, s);
    ErrorsWith(previous, s, CpuUsage);
    ErrorsWith(previous, s, LoadAverage);
    ErrorsWith(previous, s, Temperature);
    ErrorsWith(previous, s, Frequency);
    ErrorsWith(previous, s, MemoryAndSwap);
    ErrorsWith(previous, s, Uptime);
    ErrorsWith(previous, s, DiskSpace);
    ErrorsWith(previous, s, PowerStatus);
  }

  // ---- what is reported for what was read

  /** The sample the usage is measured from. */
  function Baseline(previous: Option<CpuTimes>, s: Sources): (baseline: Option<CpuTimes>) {
    if previous.Some? then previous else s.firstStat
  }

  /** The value a metric reports is the one its source gave, or what the kernel made of it; otherwise there is none. */
  ghost predicate Reports(previous: Option<CpuTimes>, s: Sources, r: Readings) {
    && r.usagePercent ==
         (if Baseline(previous, s).Some? && s.stat.Some? then
            match UsagePercent(Baseline(previous, s).value, s.stat.value)
            case Success(usage) => usage
            case Failure(_) => None
          else None)
    && r.load == s.loadavg
    && (forall v :: r.temperature == Some(v) <==>
          s.thermalZone == Text(v) || (s.thermalZone == NotFound && s.firmwareTemperature == Output(v)))
    && (forall v :: r.frequency == Some(v) <==>
          s.scalingFrequency == Text(v) || (s.scalingFrequency == NotFound && s.hardwareFrequency == Text(v)))
    && (forall v :: r.memory == Some(v) <==> s.meminfo.Some? && Memory.ParseMeminfo(s.meminfo.value) == Success(v))
    && r.uptime == s.uptime
    && r.disk == s.statvfs
    && (forall v :: r.power == Some(v) <==> s.throttled.Some? && Power.ParseThrottled(s.throttled.value) == Success(v))
  }

  /** Which reason is recorded for a metric, by what went wrong with its sources. */
  ghost predicate Explains(previous: Option<CpuTimes>, s: Sources, metric: Metric, reason: Reason) {
    match (metric, reason)
    case (CpuUsage, Unavailable) => Baseline(previous, s).None? || s.stat.None?
    case (CpuUsage, Inconsistent) =>
      Baseline(previous, s).Some? && s.stat.Some? && UsagePercent(Baseline(previous, s).value, s.stat.value).Failure?
    case (LoadAverage, Unavailable) => s.loadavg.None?
    case (Temperature, ValueMalformed) => s.thermalZone.Malformed?
    case (Temperature, CannotRead) => s.thermalZone.Unreadable?
    case (Temperature, FirmwareMalformed) => s.thermalZone.NotFound? && s.firmwareTemperature.BadOutput?
    case (Temperature, FirmwareFailed) => s.thermalZone.NotFound? && s.firmwareTemperature.CommandFailed?
    case (Frequency, ValueMalformed) =>
      s.scalingFrequency.Malformed? || (s.scalingFrequency.NotFound? && s.hardwareFrequency.Malformed?)
    case (Frequency, CannotRead) =>
      s.scalingFrequency.Unreadable? || (s.scalingFrequency.NotFound? && s.hardwareFrequency.Unreadable?)
    case (MemoryAndSwap, Unavailable) => s.meminfo.None? || Memory.ParseMeminfo(s.meminfo.value).Failure?
    case (Uptime, Unavailable) => s.uptime.None?
    case (DiskSpace, Unavailable) => s.statvfs.None?
    case (PowerStatus, Unavailable) => s.throttled.None? || Power.ParseThrottled(s.throttled.value).Failure?
    case _ => false
  }

  /** The baseline a cycle leaves: its newest sample. */
  ghost predicate Leaves(previous: Option<CpuTimes>, s: Sources, next: Option<CpuTimes>) {
    next == if Baseline(previous, s).Some? && s.stat.Some? then s.stat else Baseline(previous, s)
  }

  lemma TwoFrequencies(first: File<real>, second: File<real>)
    ensures MeasureFrequency([first, second]) ==
      match first
      case Text(v) => Value(v)
      case Malformed => Failed(ValueMalformed)
      case Unreadable => Failed(CannotRead)
      case NotFound =>
        match second
        case Text(v) => Value(v)
        case Malformed => Failed(ValueMalformed)
        case Unreadable => Failed(CannotRead)
        case NotFound => Absent
  {
    var files := [first, second];
    assert files[1..] == [second];
    assert [second][1..] == [];
    assert second.NotFound? ==> MeasureFrequency([second]) == MeasureFrequency([]);
  }

  /** Every reading is the source's. */
  lemma ReadingsAreTheSources(previous: Option<CpuTimes>, s: Sources)
    ensures Reports(previous, s, Measure(previous, s))
    ensures Leaves(previous, s, MeasureCpu(previous, s.firstStat, s.stat).baseline)
    ensures MeasureCpu(previous, s.firstStat, s.stat).slept <==> previous.None? && s.firstStat.Some?
  {
    TwoFrequencies(s.scalingFrequency, s.hardwareFrequency);
    hide MeasureFrequency, Memory.ParseMeminfo, Power.ParseThrottled, UsagePercent;
  }

  lemma ReasonOfMetric(previous: Option<CpuTimes>, s: Sources, metric: Metric, reason: Reason)
    ensures Error(previous, s, metric) == Some(reason) <==> Explains(previous, s, metric, reason)
  {
    TwoFrequencies(s.scalingFrequency, s.hardwareFrequency);
    hide MeasureFrequency, Memory.ParseMeminfo, Power.ParseThrottled, UsagePercent;
    match metric {
      case CpuUsage =>
      case LoadAverage =>
      case Temperature =>
      case Frequency =>
      case MemoryAndSwap =>
      case Uptime =>
      case DiskSpace =>
      case PowerStatus =>
    }
  }

  /** Every recorded error has the reason of its metric, and every such reason is recorded. */
  lemma ErrorsAreExplained(previous: Option<CpuTimes>, s: Sources)
    ensures forall metric, reason :: CollectorError(metric, reason) in Errors(previous, s, |METRICS|)
                                <==> Explains(previous, s, metric, reason)
  {
    ErrorsAreOrdered(previous, s, |METRICS|);
    hide Error, Errors, Explains;
    forall metric: Metric, reason: Reason
      ensures Error(previous, s, metric) == Some(reason) <==> Explains(previous, s, metric, reason)
    {
      ReasonOfMetric(previous, s, metric, reason);
    }
  }

  // ---- the collector itself

  /** The readings and errors a cycle fills in place. */
  class Snapshot {
    var readings: Readings
    var errors: seq<CollectorError>

    constructor ()
      ensures readings == UNAVAILABLE && errors == []
    {
      readings := UNAVAILABLE;
      errors := [];
    }

    method PushError(metric: Metric, reason: Reason)
      modifies this`errors
      ensures errors == old(errors) + [CollectorError(metric, reason)]
    {
      errors := errors + [CollectorError(metric, reason)];
    }
  }

  class Collector {
    var previousCpu: Option<CpuTimes>
    ghost var sleeps: nat   // warm-up sleeps so far

    constructor ()
      ensures previousCpu == None && sleeps == 0
    {
      previousCpu := None;
      sleeps := 0;
    }

    method CollectCpuUsage(s: Sources, out: Snapshot) returns (usage: Option<real>)
      modifies this, out`errors
      ensures var p := MeasureCpu(old(previousCpu), s.firstStat, s.stat);
        && usage == p.usage.Reading()
        && out.errors == Pushed(old(out.errors), CpuUsage, p.usage.Error())
        && previousCpu == p.baseline
        && sleeps == old(sleeps) + (if p.slept then 1 else 0)
    {
      var previous;
      match previousCpu {
        case Some(baseline) => previous := baseline;
        case None =>
          if s.firstStat.None? {
            out.PushError(CpuUsage, Unavailable);
            return None;
          }
          previousCpu := s.firstStat;
          sleeps := sleeps + 1;
          previous := s.firstStat.value;
      }
      if s.stat.None? {
        out.PushError(CpuUsage, Unavailable);
        return None;
      }
      previousCpu := s.stat;
      var r := ComputeUsage(previous, s.stat.value);
      match r {
        case Success(value) => usage := value;
        case Failure(_) =>
          out.PushError(CpuUsage, Inconsistent);
          usage := None;
      }
    }

    method CollectLoadAverage(s: Sources, out: Snapshot)
      modifies out
      ensures out.readings == old(out.readings).(load := if s.loadavg.Some? then s.loadavg else old(out.readings.load))
      ensures out.errors == Pushed(old(out.errors), LoadAverage, Simple(s.loadavg).Error())
    {
      match s.loadavg {
        case Some(_) => out.readings := out.readings.(load := s.loadavg);
        case None => out.PushError(LoadAverage, Unavailable);
      }
    }

    method CollectTemperature(s: Sources, out: Snapshot)
      requires out.readings.temperature.None?
      modifies out
      ensures var m := MeasureTemperature(s.thermalZone, s.firmwareTemperature);
        && out.readings == old(out.readings).(temperature := m.Reading())
        && out.errors == Pushed(old(out.errors), Temperature, m.Error())
    {
      match s.thermalZone {
        case Text(value) => out.readings := out.readings.(temperature := Some(value));
        case Malformed => out.PushError(Temperature, ValueMalformed);
        case Unreadable => out.PushError(Temperature, CannotRead);
        case NotFound =>
          match s.firmwareTemperature {
            case Output(value) => out.readings := out.readings.(temperature := Some(value));
            case BadOutput => out.PushError(Temperature, FirmwareMalformed);
            case CommandFailed => out.PushError(Temperature, FirmwareFailed);
          }
      }
    }

    method CollectFrequency(s: Sources, out: Snapshot)
      requires out.readings.frequency.None?
      modifies out
      ensures var m := MeasureFrequency([s.scalingFrequency, s.hardwareFrequency]);
        && out.readings == old(out.readings).(frequency := m.Reading())
        && out.errors == Pushed(old(out.errors), Frequency, m.Error())
    {
      var files := [s.scalingFrequency, s.hardwareFrequency];
      var i := 0;
      while i < |files|
        invariant 0 <= i <= |files|
        invariant out.readings == old(out.readings) && out.errors == old(out.errors)
        invariant MeasureFrequency(files[i..]) == MeasureFrequency(files)
      {
        match files[i] {
          case Text(value) =>
            out.readings := out.readings.(frequency := Some(value));
            return;
          case Malformed =>
            out.PushError(Frequency, ValueMalformed);
            return;
          case Unreadable =>
            out.PushError(Frequency, CannotRead);
            return;
          case NotFound =>
            assert files[i..][1..] == files[i + 1..];
        }
        i := i + 1;
      }
    }

    method CollectMemory(s: Sources, out: Snapshot)
      requires out.readings.memory.None?
      modifies out
      ensures out.readings == old(out.readings).(memory := MeasureMemory(s.meminfo).Reading())
      ensures out.errors == Pushed(old(out.errors), MemoryAndSwap, MeasureMemory(s.meminfo).Error())
    {
      hide Memory.ParseMeminfo;
      if s.meminfo.Some? && Memory.ParseMeminfo(s.meminfo.value).Success? {
        out.readings := out.readings.(memory := Some(Memory.ParseMeminfo(s.meminfo.value).value));
      } else {
        out.PushError(MemoryAndSwap, Unavailable);
      }
    }

    method CollectUptime(s: Sources, out: Snapshot)
      requires out.readings.uptime.None?
      modifies out
      ensures out.readings == old(out.readings).(uptime := s.uptime)
      ensures out.errors == Pushed(old(out.errors), Uptime, Simple(s.uptime).Error())
    {
      match s.uptime {
        case Some(_) => out.readings := out.readings.(uptime := s.uptime);
        case None => out.PushError(Uptime, Unavailable);
      }
    }

    method CollectDisk(s: Sources, out: Snapshot)
      requires out.readings.disk.None?
      modifies out
      ensures out.readings == old(out.readings).(disk := s.statvfs)
      ensures out.errors == Pushed(old(out.errors), DiskSpace, Simple(s.statvfs).Error())
    {
      match s.statvfs {
        case Some(_) => out.readings := out.readings.(disk := s.statvfs);
        case None => out.PushError(DiskSpace, Unavailable);
      }
    }

    method CollectPower(s: Sources, out: Snapshot)
      requires out.readings.power.None?
      modifies out
      ensures out.readings == old(out.readings).(power := MeasurePower(s.throttled).Reading())
      ensures out.errors == Pushed(old(out.errors), PowerStatus, MeasurePower(s.throttled).Error())
    {
      hide Power.ParseThrottled;
      if s.throttled.Some? && Power.ParseThrottled(s.throttled.value).Success? {
        out.readings := out.readings.(power := Some(Power.ParseThrottled(s.throttled.value).value));
      } else {
        out.PushError(PowerStatus, Unavailable);
      }
    }

    method Collect(s: Sources) returns (readings: Readings, errors: seq<CollectorError>)
      modifies this
      ensures readings == Measure(old(previousCpu), s)
      ensures errors == Errors(old(previousCpu), s, |METRICS|)
      ensures Reports(old(previousCpu), s, readings) && Leaves(old(previousCpu), s, previousCpu)
      ensures forall metric, reason ::
        CollectorError(metric, reason) in errors <==> Explains(old(previousCpu), s, metric, reason)
      ensures previousCpu == MeasureCpu(old(previousCpu), s.firstStat, s.stat).baseline
      ensures sleeps == old(sleeps) + (if MeasureCpu(old(previousCpu), s.firstStat, s.stat).slept then 1 else 0)
    {
      hide MeasureCpu, MeasureTemperature, MeasureFrequency, MeasureMemory, MeasurePower, Errors, Pushed;
      hide Reports, Leaves, Explains;
      ReadingsAreTheSources(previousCpu, s);
      ErrorsAreExplained(previousCpu, s);
      var out := new Snapshot();
      var usage := CollectCpuUsage(s, out);
      out.readings := out.readings.(usagePercent := usage);
      CollectLoadAverage(s, out);
      CollectTemperature(s, out);
      CollectFrequency(s, out);
      CollectMemory(s, out);
      CollectUptime(s, out);
      CollectDisk(s, out);
      CollectPower(s, out);
      readings := out.readings;
      errors := out.errors;
      AllErrors(old(previousCpu), s);
    }

    /** Cycle after cycle of a new collector, as the worker drives it. */
    method CollectEach(cycles: seq<Sources>) returns (readings: seq<Readings>)
      requires previousCpu == None && sleeps == 0
      modifies this
      ensures previousCpu == BaselineAfter(None, cycles) && sleeps == Sleeps(None, cycles)
      ensures |readings| == |cycles|
      ensures forall i :: 0 <= i < |cycles| ==> readings[i] == Measure(BaselineAfter(None, cycles[..i]), cycles[i])
    {
      hide Measure, MeasureCpu, Errors;
      readings := [];
      for i := 0 to |cycles|
        invariant previousCpu == BaselineAfter(None, cycles[..i]) && sleeps == Sleeps(None, cycles[..i])
        invariant |readings| == i
        invariant forall k :: 0 <= k < i ==> readings[k] == Measure(BaselineAfter(None, cycles[..k]), cycles[k])
      {
        assert cycles[..i + 1][..i] == cycles[..i];
        var reading, _ := Collect(cycles[i]);
        readings := readings + [reading];
      }
      assert cycles[..|cycles|] == cycles;
    }
  }

  // ---- any one cycle

  function Rank(metric: Metric): (rank: nat)
    ensures rank < |METRICS| && METRICS[rank] == metric
  {
    match metric
    case CpuUsage => 0
    case LoadAverage => 1
    case Temperature => 2
    case Frequency => 3
    case MemoryAndSwap => 4
    case Uptime => 5
    case DiskSpace => 6
    case PowerStatus => 7
  }

  function Missing(r: Readings, metric: Metric): (missing: bool) {
    match metric
    case CpuUsage => r.usagePercent.None?
    case LoadAverage => r.load.None?
    case Temperature => r.temperature.None?
    case Frequency => r.frequency.None?
    case MemoryAndSwap => r.memory.None?
    case Uptime => r.uptime.None?
    case DiskSpace => r.disk.None?
    case PowerStatus => r.power.None?
  }

  /** The two cases in which a measurement is missing and nothing went wrong. */
  predicate QuietlyMissing(previous: Option<CpuTimes>, s: Sources, metric: Metric) {
    || (metric.CpuUsage? && s.stat.Some? && Baseline(previous, s) == s.stat)
    || (metric.Frequency? && s.scalingFrequency.NotFound? && s.hardwareFrequency.NotFound?)
  }

  /** The recorded errors are exactly the errors of the metrics, at most one each, in the order of collection. */
  lemma {:induction false} ErrorsAreOrdered(previous: Option<CpuTimes>, s: Sources, n: nat)
    requires n <= |METRICS|
    ensures Ordered(Errors(previous, s, n), n)
    ensures forall metric, reason :: CollectorError(metric, reason) in Errors(previous, s, n)
                                <==> Rank(metric) < n && Error(previous, s, metric) == Some(reason)
  {
    hide Error, Pushed, Ordered;
    if n > 0 {
      ErrorsAreOrdered(previous, s, n - 1);
      PushKeepsOrder(Errors(previous, s, n - 1), METRICS[n - 1], Error(previous, s, METRICS[n - 1]));
      assert forall metric :: Rank(metric) == n - 1 <==> metric == METRICS[n - 1];
    } else {
      EmptyIsOrdered();
    }
  }

  /** Errors of the first `n` metrics only, at most one each, in the order of collection. */
  predicate Ordered(errors: seq<CollectorError>, n: nat) {
    && (forall i, j :: 0 <= i < j < |errors| ==> Rank(errors[i].metric) < Rank(errors[j].metric))
    && (forall i :: 0 <= i < |errors| ==> Rank(errors[i].metric) < n)
  }

  lemma EmptyIsOrdered()
    ensures Ordered([], 0)
  {
  }

  lemma PushKeepsOrder(errors: seq<CollectorError>, metric: Metric, reason: Option<Reason>)
    requires Ordered(errors, Rank(metric))
    ensures Ordered(Pushed(errors, metric, reason), Rank(metric) + 1)
    ensures forall e :: e in Pushed(errors, metric, reason)
                   <==> e in errors || (e.metric == metric && reason == Some(e.reason))
  {
    hide Rank;
  }

  /**
   A measurement is missing exactly when its error is recorded, or in one of the two quiet
   cases, which record none.
   */
  lemma MissingMeansError(previous: Option<CpuTimes>, s: Sources, metric: Metric)
    ensures Missing(Measure(previous, s), metric)
       <==>
         || (exists reason :: CollectorError(metric, reason) in Errors(previous, s, |METRICS|))
         || QuietlyMissing(previous, s, metric)
    ensures QuietlyMissing(previous, s, metric) ==>
      forall reason :: CollectorError(metric, reason) !in Errors(previous, s, |METRICS|)
  {
    hide Measure, Error, Errors, MeasureCpu;
    ErrorsAreOrdered(previous, s, |METRICS|);
    MissingOrError(previous, s, metric);
    if Error(previous, s, metric).Some? {
      assert CollectorError(metric, Error(previous, s, metric).value) in Errors(previous, s, |METRICS|);
    }
  }

  lemma MissingOrError(previous: Option<CpuTimes>, s: Sources, metric: Metric)
    ensures Missing(Measure(previous, s), metric)
        <==> Error(previous, s, metric).Some? || QuietlyMissing(previous, s, metric)
    ensures QuietlyMissing(previous, s, metric) ==> Error(previous, s, metric).None?
  {
    hide Memory.ParseMeminfo, Power.ParseThrottled, UsagePercent;
    hide MeasureFrequency;
    match metric {
      case CpuUsage =>
        var from := Baseline(previous, s);
        if from.Some? && s.stat.Some? {
          UsageIsAPercentage(from.value, s.stat.value);
        }
      case LoadAverage =>
      case Temperature =>
      case Frequency =>
        TwoFrequencies(s.scalingFrequency, s.hardwareFrequency);
      case MemoryAndSwap =>
      case Uptime =>
      case DiskSpace =>
      case PowerStatus =>
    }
  }

  /** Two cycles whose sources agree for one metric. */
  predicate SameSources(previous: Option<CpuTimes>, s: Sources, previous': Option<CpuTimes>, s': Sources,
                            metric: Metric) {
    match metric
    case CpuUsage => Baseline(previous, s) == Baseline(previous', s') && s.stat == s'.stat
    case LoadAverage => s.loadavg == s'.loadavg
    case Temperature =>
      && s.thermalZone == s'.thermalZone
      && (s.thermalZone.NotFound? ==> s.firmwareTemperature == s'.firmwareTemperature)
    case Frequency =>
      && s.scalingFrequency == s'.scalingFrequency
      && (s.scalingFrequency.NotFound? ==> s.hardwareFrequency == s'.hardwareFrequency)
    case MemoryAndSwap => s.meminfo == s'.meminfo
    case Uptime => s.uptime == s'.uptime
    case DiskSpace => s.statvfs == s'.statvfs
    case PowerStatus => s.throttled == s'.throttled
  }

  predicate SameReading(r: Readings, r': Readings, metric: Metric) {
    match metric
    case CpuUsage => r.usagePercent == r'.usagePercent
    case LoadAverage => r.load == r'.load
    case Temperature => r.temperature == r'.temperature
    case Frequency => r.frequency == r'.frequency
    case MemoryAndSwap => r.memory == r'.memory
    case Uptime => r.uptime == r'.uptime
    case DiskSpace => r.disk == r'.disk
    case PowerStatus => r.power == r'.power
  }

  /** Whatever happens to the other sources, a metric with the same sources has the same reading and the same errors. */
  lemma SourcesAreIndependent(previous: Option<CpuTimes>, s: Sources, previous': Option<CpuTimes>, s': Sources,
                            metric: Metric)
    requires SameSources(previous, s, previous', s', metric)
    ensures SameReading(Measure(previous, s), Measure(previous', s'), metric)
    ensures forall reason :: CollectorError(metric, reason) in Errors(previous, s, |METRICS|)
                        <==> CollectorError(metric, reason) in Errors(previous', s', |METRICS|)
  {
    SameMeasurement(previous, s, previous', s', metric);
    ErrorsAreOrdered(previous, s, |METRICS|);
    ErrorsAreOrdered(previous', s', |METRICS|);
    hide Error, Measure, Errors;
  }

  lemma SameMeasurement(previous: Option<CpuTimes>, s: Sources, previous': Option<CpuTimes>, s': Sources,
                            metric: Metric)
    requires SameSources(previous, s, previous', s', metric)
    ensures SameReading(Measure(previous, s), Measure(previous', s'), metric)
    ensures Error(previous, s, metric) == Error(previous', s', metric)
  {
    hide MeasureMemory, MeasurePower, MeasureFrequency, UsagePercent;
    match metric {
      case CpuUsage =>
      case LoadAverage =>
      case Temperature =>
      case Frequency => FrequencyStopsEarly(s.scalingFrequency, s.hardwareFrequency, s'.hardwareFrequency);
      case MemoryAndSwap =>
      case Uptime =>
      case DiskSpace =>
      case PowerStatus =>
    }
  }

  lemma FrequencyStopsEarly(first: File<real>, second: File<real>, second': File<real>)
    requires first.NotFound? ==> second == second'
    ensures MeasureFrequency([first, second]) == MeasureFrequency([first, second'])
  {
  }

  // ---- any number of cycles

  /** The baseline after the cycles, from that before them. */
  function BaselineAfter(start: Option<CpuTimes>, cycles: seq<Sources>): (baseline: Option<CpuTimes>)
    decreases |cycles|
  {
    if cycles == [] then start
    else
      var last := cycles[|cycles| - 1];
      MeasureCpu(BaselineAfter(start, cycles[..|cycles| - 1]), last.firstStat, last.stat).baseline
  }

  function Sleeps(start: Option<CpuTimes>, cycles: seq<Sources>): (sleeps: nat)
    decreases |cycles|
  {
    if cycles == [] then 0
    else
      var last := cycles[|cycles| - 1];
      Sleeps(start, cycles[..|cycles| - 1])
      + (if MeasureCpu(BaselineAfter(start, cycles[..|cycles| - 1]), last.firstStat, last.stat).slept then 1 else 0)
  }

  /** At most one warm-up sleep over any number of cycles: exactly one when some first sample could be read. */
  lemma {:induction false} AtMostOneWarmUp(cycles: seq<Sources>)
    ensures Sleeps(None, cycles) <= 1
    ensures Sleeps(None, cycles) == 1 <==> exists i :: 0 <= i < |cycles| && cycles[i].firstStat.Some?
    ensures Sleeps(None, cycles) == 1 <==> BaselineAfter(None, cycles).Some?
    decreases |cycles|
  {
    if cycles != [] {
      hide UsagePercent;
      AtMostOneWarmUp(cycles[..|cycles| - 1]);
    }
  }

  /** A cycle's CPU samples, in the order they are read. */
  function Samples(previous: Option<CpuTimes>, s: Sources): (samples: seq<CpuTimes>) {
    (if previous.None? && s.firstStat.Some? then [s.firstStat.value] else [])
    + (if s.stat.Some? && Baseline(previous, s).Some? then [s.stat.value] else [])
  }

  function AllSamples(cycles: seq<Sources>): (samples: seq<CpuTimes>)
    decreases |cycles|
  {
    if cycles == [] then []
    else
      AllSamples(cycles[..|cycles| - 1])
      + Samples(BaselineAfter(None, cycles[..|cycles| - 1]), cycles[|cycles| - 1])
  }

  /**
   Every usage is measured from the newest sample ever read: no failure makes the collector
   fall back on an older one.
   */
  lemma {:induction false} BaselineIsNewestSample(cycles: seq<Sources>)
    ensures var samples := AllSamples(cycles);
      BaselineAfter(None, cycles) == if samples == [] then None else Some(samples[|samples| - 1])
    decreases |cycles|
  {
    if cycles != [] {
      hide UsagePercent;
      BaselineIsNewestSample(cycles[..|cycles| - 1]);
    }
  }

  /** The exact condition of a CPU error in a cycle with a baseline. */
  lemma CpuErrorCondition(baseline: CpuTimes, s: Sources)
    ensures (exists reason :: CollectorError(CpuUsage, reason) in Errors(Some(baseline), s, |METRICS|))
       <==> s.stat.None? || !Grows(baseline, s.stat.value) || Sum(Delta(baseline, s.stat.value)) > U64_MAX
  {
    ErrorsAreOrdered(Some(baseline), s, |METRICS|);
    hide UsagePercent, Errors;
    if s.stat.Some? {
      UsageIsAPercentage(baseline, s.stat.value);
    }
    var e := Error(Some(baseline), s, CpuUsage);
    if e.Some? {
      assert CollectorError(CpuUsage, e.value) in Errors(Some(baseline), s, |METRICS|);
    }
  }

  /** Readable samples that only grow, with no delta sum out of range. */
  ghost predicate Steady(from: CpuTimes, later: seq<Sources>)
    decreases |later|
  {
    later == []
    || (&& later[0].stat.Some?
        && Grows(from, later[0].stat.value)
        && Sum(Delta(from, later[0].stat.value)) <= U64_MAX
        && Steady(later[0].stat.value, later[1..]))
  }

  /**
   Recovery: whatever the cycles before, once a cycle has read its samples, even
   samples that rolled back, no later steady cycle records a CPU error.
   */
  lemma {:induction false} RecoversAfterRollback(before: seq<Sources>, now: Sources, later: seq<Sources>, k: nat)
    requires BaselineAfter(None, before).Some? || now.firstStat.Some?
    requires now.stat.Some? && Steady(now.stat.value, later) && k < |later|
    ensures var previous := BaselineAfter(None, before + [now] + later[..k]);
      forall reason :: CollectorError(CpuUsage, reason) !in Errors(previous, later[k], |METRICS|)
  {
    hide Errors, Sum, Delta;
    SteadyBaseline(before, now, later, k);
    CpuErrorCondition(SteadyFrom(now.stat.value, later, k), later[k]);
  }

  function SteadyFrom(from: CpuTimes, later: seq<Sources>, k: nat): (baseline: CpuTimes)
    requires Steady(from, later) && k <= |later|
    ensures k < |later| ==>
      && later[k].stat.Some?
      && Grows(baseline, later[k].stat.value)
      && Sum(Delta(baseline, later[k].stat.value)) <= U64_MAX
    decreases k
  {
    if k == 0 then from else SteadyFrom(later[0].stat.value, later[1..], k - 1)
  }

  lemma {:induction false} SteadyBaseline(before: seq<Sources>, now: Sources, later: seq<Sources>, k: nat)
    requires BaselineAfter(None, before).Some? || now.firstStat.Some?
    requires now.stat.Some? && Steady(now.stat.value, later) && k <= |later|
    ensures BaselineAfter(None, before + [now] + later[..k]) == Some(SteadyFrom(now.stat.value, later, k))
    decreases k
  {
    hide Sum, Delta, UsagePercent;
    var cycles := before + [now] + later[..k];
    if k == 0 {
      assert cycles == before + [now] && cycles[..|cycles| - 1] == before;
    } else {
      SteadyBaseline(before + [now], later[0], later[1..], k - 1);
      assert cycles == (before + [now]) + [later[0]] + later[1..][..k - 1];
    }
  }
}
