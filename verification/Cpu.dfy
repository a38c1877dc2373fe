/** CPU utilization from two samples of the aggregate jiffy counters. */
module Cpu {
  import opened Wrappers

  /** user, nice, system, idle, iowait, irq, softirq, steal. */
  type CpuTimes = c: seq<u64> | |c| == 8 witness [0, 0, 0, 0, 0, 0, 0, 0]

  const IDLE: nat := 3
  const IO_WAIT: nat := 4

  datatype CpuError = MovedBackwards(counter: nat) | IdleOverflow | TotalOverflow | IdleExceedsTotal

  function Sum(values: seq<nat>): (sum: nat) {
    if values == [] then 0 else Sum(values[..|values| - 1]) + values[|values| - 1]
  }

  /** Every counter of `old` is at most that of `new`. */
  ghost predicate Grows(old_: CpuTimes, new_: CpuTimes) {
    forall i :: 0 <= i < 8 ==> old_[i] <= new_[i]
  }

  function Delta(old_: CpuTimes, new_: CpuTimes): (delta: seq<nat>)
    requires Grows(old_, new_)
    ensures |delta| == 8
  {
    seq(8, i requires 0 <= i < 8 => new_[i] - old_[i])
  }

  /** The first counter that moved backwards, 8 when none did. */
  function FirstRollback(old_: CpuTimes, new_: CpuTimes, from: nat): (i: nat)
    requires from <= 8
    ensures from <= i <= 8
    ensures forall k :: from <= k < i ==> old_[k] <= new_[k]
    ensures i < 8 ==> old_[i] > new_[i]
    decreases 8 - from
  {
    if from == 8 || old_[from] > new_[from] then from else FirstRollback(old_, new_, from + 1)
  }

  /** The left-to-right checked sum of `u64` counters. */
  method CheckedSum(values: seq<u64>) returns (sum: Option<u64>)
    ensures sum == if Sum(values) <= U64_MAX then Some(Sum(values)) else None
  {
    var total: u64 := 0;
    var i := 0;
    while i < |values|
      invariant 0 <= i <= |values|
      invariant total == Sum(values[..i]) && forall k :: i <= k <= |values| ==> Sum(values[..i]) <= Sum(values[..k])
    {
      assert values[..i + 1][..i] == values[..i];
      SumGrows(values, i + 1);
      match CheckedAdd(total, values[i]) {
        case Some(next) => total := next;
        case None =>
          assert values[..|values|] == values;
          return None;
      }
      i := i + 1;
    }
    assert values[..i] == values;
    sum := Some(total);
  }

  lemma {:induction false} SumGrows(values: seq<nat>, from: nat)
    requires from <= |values|
    ensures forall k :: from <= k <= |values| ==> Sum(values[..from]) <= Sum(values[..k])
    decreases |values| - from
  {
    if from < |values| {
      SumGrows(values, from + 1);
      assert values[..from + 1][..from] == values[..from];
    }
  }

  function UsagePercent(previous: CpuTimes, current: CpuTimes): (r: Result<Option<real>, CpuError>) {
    var rollback := FirstRollback(previous, current, 0);
    if rollback < 8 then Failure(MovedBackwards(rollback))
    else
      var delta := Delta(previous, current);
      if delta[IDLE] + delta[IO_WAIT] > U64_MAX then Failure(IdleOverflow)
      else if Sum(delta) > U64_MAX then Failure(TotalOverflow)
      else if Sum(delta) == 0 then Success(None)
      else if delta[IDLE] + delta[IO_WAIT] > Sum(delta) then Failure(IdleExceedsTotal)
      else Success(Some(Share(Sum(delta) - (delta[IDLE] + delta[IO_WAIT]), Sum(delta))))
  }

  /** How far one counter moved between two samples. */
  function Moved(p: CpuTimes, c: CpuTimes, counter: nat): (n: int)
    requires counter < 8
  {
    (c[counter] as int) - (p[counter] as int)
  }

  /** Jiffies between two samples in all of user, nice, system, idle, iowait, irq, softirq and steal. */
  function AllJiffies(p: CpuTimes, c: CpuTimes): (n: int) {
    Moved(p, c, 0) + Moved(p, c, 1) + Moved(p, c, 2) + Moved(p, c, 3)
    + Moved(p, c, 4) + Moved(p, c, 5) + Moved(p, c, 6) + Moved(p, c, 7)
  }

  /** Jiffies between two samples in user, nice, system, irq, softirq and steal. */
  function BusyJiffies(p: CpuTimes, c: CpuTimes): (n: int) {
    Moved(p, c, 0) + Moved(p, c, 1) + Moved(p, c, 2) + Moved(p, c, 5) + Moved(p, c, 6) + Moved(p, c, 7)
  }

  /**
   The percentage is that of the busy jiffies in all: nothing of it when only idle and iowait
   moved, all when neither did.
   */
  ghost predicate BusyShare(p: CpuTimes, c: CpuTimes, percent: real) {
    && AllJiffies(p, c) > 0
    && percent * AllJiffies(p, c) as real == 100.0 * BusyJiffies(p, c) as real
    && (percent == 0.0 <==>
          p[0] == c[0] && p[1] == c[1] && p[2] == c[2] && p[5] == c[5] && p[6] == c[6] && p[7] == c[7])
    && (percent == 100.0 <==> p[3] == c[3] && p[4] == c[4])
  }

  lemma UsageCases(p: CpuTimes, c: CpuTimes)
    ensures var rollback, r := FirstRollback(p, c, 0), UsagePercent(p, c);
      if rollback < 8 then r == Failure(MovedBackwards(rollback))
      else
        var idle, total := Delta(p, c)[IDLE] + Delta(p, c)[IO_WAIT], Sum(Delta(p, c));
        if idle > U64_MAX then r == Failure(IdleOverflow)
        else if total > U64_MAX then r == Failure(TotalOverflow)
        else if total == 0 then r == Success(None)
        else if idle > total then r == Failure(IdleExceedsTotal)
        else r == Success(Some(Share(total - idle, total)))
  {
    hide Sum;
  }

  function Share(part: nat, whole: nat): (percent: real)
    requires whole > 0
  {
    100.0 * part as real / whole as real
  }

  method ComputeUsage(previous: CpuTimes, current: CpuTimes) returns (r: Result<Option<real>, CpuError>)
    ensures r == UsagePercent(previous, current)
    ensures r.Success? && r.value.Some? ==> BusyShare(previous, current, r.value.value)
  {
    hide BusyShare, Sum, UsagePercent, Share;
    UsageIsBusyShare(previous, current);
    UsageCases(previous, current);
    var delta := new u64[8](_ => 0);
    var index := 0;
    while index < 8
      invariant 0 <= index <= 8
      invariant forall k :: 0 <= k < index ==> previous[k] <= current[k] && delta[k] == current[k] - previous[k]
      invariant FirstRollback(previous, current, 0) == FirstRollback(previous, current, index)
    {
      match CheckedSub(current[index], previous[index]) {
        case Some(difference) => delta[index] := difference;
        case None => return Failure(MovedBackwards(index));
      }
      index := index + 1;
    }
    assert delta[..] == Delta(previous, current);
    var idleDelta := CheckedAdd(delta[IDLE], delta[IO_WAIT]);
    if idleDelta.None? {
      return Failure(IdleOverflow);
    }
    var totalDelta := CheckedSum(delta[..]);
    if totalDelta.None? {
      return Failure(TotalOverflow);
    }
    if totalDelta.value == 0 {
      return Success(None);
    }
    match CheckedSub(totalDelta.value, idleDelta.value) {
      case None => r := Failure(IdleExceedsTotal);
      case Some(busy) => r := Success(Some(Share(busy, totalDelta.value)));
    }
  }

  // ---- what the percentage means

  lemma SumStep(d: seq<nat>, n: nat)
    requires n < |d|
    ensures Sum(d[..n + 1]) == Sum(d[..n]) + d[n]
  {
    assert d[..n + 1][..n] == d[..n];
  }

  lemma SumOfEight(d: seq<nat>)
    requires |d| == 8
    ensures Sum(d) == d[0] + d[1] + d[2] + d[3] + d[4] + d[5] + d[6] + d[7]
  {
    SumStep(d, 0);
    SumStep(d, 1);
    SumStep(d, 2);
    SumStep(d, 3);
    SumStep(d, 4);
    SumStep(d, 5);
    SumStep(d, 6);
    SumStep(d, 7);
    assert d[..8] == d && d[..0] == [];
  }

  /** When a percentage comes out, and that it is one; exactly an unmoved sample gives none. */
  lemma UsageIsAPercentage(previous: CpuTimes, current: CpuTimes)
    ensures var r := UsagePercent(previous, current);
      && (r.Success? && r.value.Some? ==> 0.0 <= r.value.value <= 100.0)
      && (r == Success(None) <==> previous == current)
      && r != Failure(IdleExceedsTotal)
      && (r.Success? <==> Grows(previous, current) && Sum(Delta(previous, current)) <= U64_MAX)
  {
    if FirstRollback(previous, current, 0) == 8 {
      var d := Delta(previous, current);
      SumOfEight(d);
      if Sum(d) == 0 {
        assert previous == current;
      } else if Sum(d) <= U64_MAX {
        Fraction(Sum(d) - d[IDLE] - d[IO_WAIT], Sum(d));
      }
    }
  }

  lemma Fraction(part: nat, whole: nat)
    requires part <= whole && whole > 0
    ensures 0.0 <= 100.0 * part as real / whole as real <= 100.0
  {
    assert 100.0 * part as real <= 100.0 * whole as real;
  }

  lemma Mediant(a: nat, b: nat, c: nat, d: nat)
    requires b > 0 && d > 0 && a as real / b as real <= c as real / d as real
    ensures a as real / b as real <= (a + c) as real / (b + d) as real <= c as real / d as real
  {
    var x, y := a as real / b as real, c as real / d as real;
    assert a as real == x * b as real && c as real == y * d as real;
    var z := (a + c) as real / (b + d) as real;
    assert z * (b + d) as real == x * b as real + y * d as real;
    assert (z - x) * (b + d) as real == (y - x) * d as real >= 0.0;
    assert (y - z) * (b + d) as real == (y - x) * b as real >= 0.0;
  }

  lemma DeltasAdd(a: CpuTimes, b: CpuTimes, c: CpuTimes)
    requires Grows(a, b) && Grows(b, c)
    ensures Grows(a, c)
    ensures Sum(Delta(a, c)) == Sum(Delta(a, b)) + Sum(Delta(b, c))
    ensures forall i :: 0 <= i < 8 ==> Delta(a, c)[i] == Delta(a, b)[i] + Delta(b, c)[i]
  {
    SumOfEight(Delta(a, b));
    SumOfEight(Delta(b, c));
    SumOfEight(Delta(a, c));
  }

  /** Usage over two consecutive intervals lies between the usage over each. */
  lemma UsageLiesBetween(a: CpuTimes, b: CpuTimes, c: CpuTimes)
    requires UsagePercent(a, b).Success? && UsagePercent(a, b).value.Some?
    requires UsagePercent(b, c).Success? && UsagePercent(b, c).value.Some?
    requires UsagePercent(a, c).Success?
    ensures UsagePercent(a, c).value.Some?
    ensures
      var first, second, whole :=
          UsagePercent(a, b).value.value, UsagePercent(b, c).value.value, UsagePercent(a, c).value.value;
      if first <= second then first <= whole <= second else second <= whole <= first
  {
    UsageIsAPercentage(a, b);
    UsageIsAPercentage(b, c);
    UsageIsAPercentage(a, c);
    DeltasAdd(a, b, c);
    SumOfEight(Delta(a, b));
    SumOfEight(Delta(b, c));
    var busy1 := Sum(Delta(a, b)) - Delta(a, b)[IDLE] - Delta(a, b)[IO_WAIT];
    var busy2 := Sum(Delta(b, c)) - Delta(b, c)[IDLE] - Delta(b, c)[IO_WAIT];
    BetweenFractions(busy1, Sum(Delta(a, b)), busy2, Sum(Delta(b, c)));
  }

  lemma BetweenFractions(p: nat, q: nat, r: nat, t: nat)
    requires q > 0 && t > 0
    ensures
      var first, second := 100.0 * p as real / q as real, 100.0 * r as real / t as real;
      var whole := 100.0 * (p + r) as real / (q + t) as real;
      if first <= second then first <= whole <= second else second <= whole <= first
  {
    HundredTimes(p, q);
    HundredTimes(r, t);
    HundredTimes(p + r, q + t);
    if p as real / q as real <= r as real / t as real {
      Mediant(p, q, r, t);
    } else {
      Mediant(r, t, p, q);
    }
  }

  lemma HundredTimes(p: nat, q: nat)
    requires q > 0
    ensures 100.0 * p as real / q as real == 100.0 * (p as real / q as real)
  {
  }

  lemma ExactShare(part: nat, whole: nat, percent: real)
    requires whole > 0 && part <= whole && percent == 100.0 * part as real / whole as real
    ensures percent * whole as real == 100.0 * part as real
    ensures percent == 0.0 <==> part == 0
    ensures percent == 100.0 <==> part == whole
  {
    assert percent * whole as real == 100.0 * part as real;
  }

  /** What the percentage is a percentage of. */
  lemma UsageIsBusyShare(previous: CpuTimes, current: CpuTimes)
    ensures var r := UsagePercent(previous, current);
      r.Success? && r.value.Some? ==> BusyShare(previous, current, r.value.value)
  {
    var r := UsagePercent(previous, current);
    if r.Success? && r.value.Some? {
      var d := Delta(previous, current);
      SumOfEight(d);
      ExactShare(Sum(d) - (d[IDLE] + d[IO_WAIT]), Sum(d), r.value.value);
      hide UsagePercent, Share, Sum;
    }
  }

  /** Which error comes out: the first counter that moved backwards, then the idle sum, then the total. */
  lemma UsageErrors(p: CpuTimes, c: CpuTimes)
    ensures var r := UsagePercent(p, c);
      && (forall k: nat :: r == Failure(MovedBackwards(k)) <==> k < 8 && c[k] < p[k] && forall j :: 0 <= j < k ==>
          p[j] <= c[j])
      && (r == Failure(IdleOverflow) <==> Grows(p, c) && Moved(p, c, 3) + Moved(p, c, 4) > U64_MAX)
      && (r == Failure(TotalOverflow) <==>
            Grows(p, c) && Moved(p, c, 3) + Moved(p, c, 4) <= U64_MAX && AllJiffies(p, c) > U64_MAX)
  {
    UsageIsAPercentage(p, c);
    var first := FirstRollback(p, c, 0);
    if first == 8 {
      SumOfEight(Delta(p, c));
    }
  }
}
