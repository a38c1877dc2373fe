/** Reconnection delays: a capped schedule with bounded jitter, and the generator of the jitter. */
module Backoff {
  import opened Wrappers

  const RETRY_SECONDS: seq<nat> := [1, 2, 4, 8, 16, 30, 60]
  const USIZE_MAX: nat := 0xFFFF_FFFF_FFFF_FFFF

  /** An `f64` jitter argument; rounding is not modelled. */
  datatype Float = Finite(value: real) | NotFinite

  function Clamp(x: real): (y: real) {
    if x < 0.0 then 0.0 else if x > 1.0 then 1.0 else x
  }

  /** The schedule entry after a number of consecutive failures. */
  function Base(failures: nat): (seconds: nat) {
    RETRY_SECONDS[Min(failures, |RETRY_SECONDS| - 1)]
  }

  /** The delay after a number of consecutive failures, for a jitter within the unit interval. */
  function DelayFor(failures: nat, unit: real): (delay: real)
    requires 0.0 <= unit <= 1.0
    ensures Within(delay, failures)
  {
    ScaledWithin(Base(failures) as real, unit);
    Base(failures) as real * (0.8 + 0.4 * unit)
  }

  /** The schedule: a second, doubling to sixteen, then thirty, then a minute for good. */
  lemma ScheduleIs(failures: nat)
    ensures failures == 0 ==> Base(failures) == 1
    ensures 0 < failures <= 4 ==> Base(failures) == 2 * Base(failures - 1)
    ensures failures == 5 ==> Base(failures) == 30
    ensures failures >= 6 ==> Base(failures) == 60
  {
  }

  /** The delay grows linearly with the jitter, from four fifths of the entry to six fifths. */
  lemma DelayIsLinear(failures: nat, unit: real)
    requires 0.0 <= unit <= 1.0
    ensures DelayFor(failures, 0.0) == 0.8 * Base(failures) as real
    ensures DelayFor(failures, 1.0) == 1.2 * Base(failures) as real
    ensures DelayFor(failures, unit) - DelayFor(failures, 0.0)
         == unit * (DelayFor(failures, 1.0) - DelayFor(failures, 0.0))
  {
  }

  /** More jitter, more delay. */
  lemma DelayIncreases(failures: nat, less: real, more: real)
    requires 0.0 <= less < more <= 1.0
    ensures DelayFor(failures, less) < DelayFor(failures, more)
  {
    DelayIsLinear(failures, less);
    DelayIsLinear(failures, more);
    ScheduleIsPositive(failures);
    var span := DelayFor(failures, 1.0) - DelayFor(failures, 0.0);
    assert span > 0.0;
    hide DelayFor;
    assert (more - less) * span > 0.0;
  }

  lemma ScheduleIsPositive(failures: nat)
    ensures Base(failures) >= 1
  {
  }

  lemma DelayIsBounded(failures: nat, unit: real)
    requires 0.0 < unit <= 1.0
    ensures 0.8 * Base(failures) as real < DelayFor(failures, unit) <= 1.2 * Base(failures) as real
  {
    var base := Base(failures) as real;
    assert base > 0.0 && base * (0.4 * unit) > 0.0;
  }

  class RetryBackoff {
    var attempt: nat

    ghost predicate Valid()
      reads this
    {
      attempt <= USIZE_MAX
    }

    constructor ()
      ensures Valid() && attempt == 0
    {
      attempt := 0;
    }

    method NextDelay(jitterUnit: Float) returns (delay: real)
      requires Valid()
      modifies this
      ensures Valid() && attempt == Min(old(attempt) + 1, USIZE_MAX)
      ensures delay == DelayFor(old(attempt), if jitterUnit.Finite? then Clamp(jitterUnit.value) else 0.5)
      ensures 0.8 * Base(old(attempt)) as real <= delay <= 1.2 * Base(old(attempt)) as real
      ensures jitterUnit.NotFinite? ==> delay == Base(old(attempt)) as real
      ensures jitterUnit.Finite? && jitterUnit.value <= 0.0 ==> delay == 0.8 * Base(old(attempt)) as real
      ensures jitterUnit.Finite? && jitterUnit.value >= 1.0 ==> delay == 1.2 * Base(old(attempt)) as real
    {
      var index := if attempt < |RETRY_SECONDS| - 1 then attempt else |RETRY_SECONDS| - 1;
      attempt := if attempt == USIZE_MAX then USIZE_MAX else attempt + 1;
      var unit := if jitterUnit.Finite? then Clamp(jitterUnit.value) else 0.5;
      ScaledWithin(RETRY_SECONDS[index] as real, unit);
      delay := RETRY_SECONDS[index] as real * (0.8 + 0.4 * unit);
    }

    method Reset()
      modifies this
      ensures attempt == 0
    {
      attempt := 0;
    }
  }

  lemma ScaledWithin(base: real, unit: real)
    requires base >= 0.0 && 0.0 <= unit <= 1.0
    ensures 0.8 * base <= base * (0.8 + 0.4 * unit) <= 1.2 * base
  {
    assert base * (0.4 * unit) >= 0.0;
    assert base * (0.4 * (1.0 - unit)) >= 0.0;
  }

  /** What happens to the backoff in a run: failed polls and acknowledged connections. */
  datatype Attempt = Fails(jitter: Float) | Connects

  /** Failures since the last acknowledged connection. */
  function Streak(attempts: seq<Attempt>): (n: nat) {
    if attempts == [] then 0
    else if attempts[|attempts| - 1].Connects? then 0
    else Streak(attempts[..|attempts| - 1]) + 1
  }

  function Failures(attempts: seq<Attempt>): (n: nat) {
    if attempts == [] then 0
    else Failures(attempts[..|attempts| - 1]) + if attempts[|attempts| - 1].Fails? then 1 else 0
  }

  /** A delay is within 20% of the schedule entry for the failures that preceded it. */
  ghost predicate Within(delay: real, failures: nat) {
    0.8 * Base(failures) as real <= delay <= 1.2 * Base(failures) as real
  }

  /** The backoff over a whole run; each delay belongs to one failure, in order. */
  method Delays(attempts: seq<Attempt>) returns (delays: seq<real>)
    ensures |delays| == Failures(attempts)
    ensures forall i :: 0 <= i < |attempts| && attempts[i].Fails? ==>
      Failures(attempts[..i]) < |delays| && Within(delays[Failures(attempts[..i])], Streak(attempts[..i]))
  {
    var backoff := new RetryBackoff();
    delays := [];
    var i := 0;
    while i < |attempts|
      invariant 0 <= i <= |attempts| && backoff.Valid()
      invariant backoff.attempt == Min(Streak(attempts[..i]), USIZE_MAX)
      invariant |delays| == Failures(attempts[..i])
      invariant forall k :: 0 <= k < i && attempts[k].Fails? ==>
        Failures(attempts[..k]) < |delays| && Within(delays[Failures(attempts[..k])], Streak(attempts[..k]))
    {
      assert attempts[..i + 1][..i] == attempts[..i];
      match attempts[i] {
        case Fails(jitter) =>
          var delay := backoff.NextDelay(jitter);
          delays := delays + [delay];
        case Connects =>
          backoff.Reset();
      }
      i := i + 1;
    }
    assert attempts[..i] == attempts;
  }

  // ---- the jitter generator

  // Combining a word twice with its own shift by n combines it with its shift by 2n, and a
  // shift past the word does nothing; so combining with shifts each twice as far undoes the
  // first one, from either side.

  function Xor(x: bv64, y: bv64): (z: bv64) { x ^ y }

  lemma XorCancels(x: bv64, y: bv64, z: bv64)
    ensures Xor(Xor(x, y), Xor(y, z)) == Xor(x, z)
  {
  }

  lemma XorZero(x: bv64)
    ensures Xor(x, 0) == x
  {
  }

  function ShiftLeft13(x: bv64): (y: bv64) { x << 13 }
  function ShiftLeft26(x: bv64): (y: bv64) { x << 26 }
  function ShiftLeft52(x: bv64): (y: bv64) { x << 52 }
  function Left13(x: bv64): (y: bv64) { Xor(x, ShiftLeft13(x)) }
  function Left26(x: bv64): (y: bv64) { Xor(x, ShiftLeft26(x)) }
  function Left52(x: bv64): (y: bv64) { Xor(x, ShiftLeft52(x)) }

  lemma ShiftLeft13Laws(x: bv64, y: bv64)
    ensures ShiftLeft13(Xor(x, y)) == Xor(ShiftLeft13(x), ShiftLeft13(y))
    ensures ShiftLeft13(ShiftLeft13(x)) == ShiftLeft26(x)
  {
  }

  lemma Left13Twice(x: bv64)
    ensures Left13(Left13(x)) == Left26(x)
  {
    ShiftLeft13Laws(x, ShiftLeft13(x));
    XorCancels(x, ShiftLeft13(x), ShiftLeft13(ShiftLeft13(x)));
    hide Xor, ShiftLeft13, ShiftLeft26, ShiftLeft52;
  }

  lemma ShiftLeft26Laws(x: bv64, y: bv64)
    ensures ShiftLeft26(Xor(x, y)) == Xor(ShiftLeft26(x), ShiftLeft26(y))
    ensures ShiftLeft26(ShiftLeft26(x)) == ShiftLeft52(x)
  {
  }

  lemma Left26Twice(x: bv64)
    ensures Left26(Left26(x)) == Left52(x)
  {
    ShiftLeft26Laws(x, ShiftLeft26(x));
    XorCancels(x, ShiftLeft26(x), ShiftLeft26(ShiftLeft26(x)));
    hide Xor, ShiftLeft13, ShiftLeft26, ShiftLeft52;
  }

  lemma ShiftLeft52Laws(x: bv64, y: bv64)
    ensures ShiftLeft52(Xor(x, y)) == Xor(ShiftLeft52(x), ShiftLeft52(y))
    ensures ShiftLeft52(ShiftLeft52(x)) == 0
  {
  }

  lemma Left52Twice(x: bv64)
    ensures Left52(Left52(x)) == x
  {
    ShiftLeft52Laws(x, ShiftLeft52(x));
    XorCancels(x, ShiftLeft52(x), ShiftLeft52(ShiftLeft52(x)));
    XorZero(x);
    hide Xor, ShiftLeft13, ShiftLeft26, ShiftLeft52;
  }

  function Unleft13(y: bv64): (x: bv64) { Left52(Left26(Left13(y))) }

  lemma Unleft13Undoes(x: bv64)
    ensures Unleft13(Left13(x)) == x && Left13(Unleft13(x)) == x
  {
    hide Left13, Left26, Left52;
    var other := Left13(Left26(Left52(x)));
    Left13Twice(x);
    Left26Twice(x);
    Left52Twice(x);
    Left26Twice(Left52(x));
    Left13Twice(Left26(Left52(x)));
    Left13Twice(other);
    Left26Twice(other);
    Left52Twice(other);
  }

  function ShiftRight7(x: bv64): (y: bv64) { x >> 7 }
  function ShiftRight14(x: bv64): (y: bv64) { x >> 14 }
  function ShiftRight28(x: bv64): (y: bv64) { x >> 28 }
  function ShiftRight56(x: bv64): (y: bv64) { x >> 56 }
  function Right7(x: bv64): (y: bv64) { Xor(x, ShiftRight7(x)) }
  function Right14(x: bv64): (y: bv64) { Xor(x, ShiftRight14(x)) }
  function Right28(x: bv64): (y: bv64) { Xor(x, ShiftRight28(x)) }
  function Right56(x: bv64): (y: bv64) { Xor(x, ShiftRight56(x)) }

  lemma ShiftRight7Laws(x: bv64, y: bv64)
    ensures ShiftRight7(Xor(x, y)) == Xor(ShiftRight7(x), ShiftRight7(y))
    ensures ShiftRight7(ShiftRight7(x)) == ShiftRight14(x)
  {
  }

  lemma Right7Twice(x: bv64)
    ensures Right7(Right7(x)) == Right14(x)
  {
    ShiftRight7Laws(x, ShiftRight7(x));
    XorCancels(x, ShiftRight7(x), ShiftRight7(ShiftRight7(x)));
    hide Xor, ShiftRight7, ShiftRight14, ShiftRight28, ShiftRight56;
  }

  lemma ShiftRight14Laws(x: bv64, y: bv64)
    ensures ShiftRight14(Xor(x, y)) == Xor(ShiftRight14(x), ShiftRight14(y))
    ensures ShiftRight14(ShiftRight14(x)) == ShiftRight28(x)
  {
  }

  lemma Right14Twice(x: bv64)
    ensures Right14(Right14(x)) == Right28(x)
  {
    ShiftRight14Laws(x, ShiftRight14(x));
    XorCancels(x, ShiftRight14(x), ShiftRight14(ShiftRight14(x)));
    hide Xor, ShiftRight7, ShiftRight14, ShiftRight28, ShiftRight56;
  }

  lemma ShiftRight28Laws(x: bv64, y: bv64)
    ensures ShiftRight28(Xor(x, y)) == Xor(ShiftRight28(x), ShiftRight28(y))
    ensures ShiftRight28(ShiftRight28(x)) == ShiftRight56(x)
  {
  }

  lemma Right28Twice(x: bv64)
    ensures Right28(Right28(x)) == Right56(x)
  {
    ShiftRight28Laws(x, ShiftRight28(x));
    XorCancels(x, ShiftRight28(x), ShiftRight28(ShiftRight28(x)));
    hide Xor, ShiftRight7, ShiftRight14, ShiftRight28, ShiftRight56;
  }

  lemma ShiftRight56Laws(x: bv64, y: bv64)
    ensures ShiftRight56(Xor(x, y)) == Xor(ShiftRight56(x), ShiftRight56(y))
    ensures ShiftRight56(ShiftRight56(x)) == 0
  {
  }

  lemma Right56Twice(x: bv64)
    ensures Right56(Right56(x)) == x
  {
    ShiftRight56Laws(x, ShiftRight56(x));
    XorCancels(x, ShiftRight56(x), ShiftRight56(ShiftRight56(x)));
    XorZero(x);
    hide Xor, ShiftRight7, ShiftRight14, ShiftRight28, ShiftRight56;
  }

  function Unright7(y: bv64): (x: bv64) { Right56(Right28(Right14(Right7(y)))) }

  lemma Unright7Undoes(x: bv64)
    ensures Unright7(Right7(x)) == x && Right7(Unright7(x)) == x
  {
    hide Right7, Right14, Right28, Right56;
    var other := Right7(Right14(Right28(Right56(x))));
    Right7Twice(x);
    Right14Twice(x);
    Right28Twice(x);
    Right56Twice(x);
    Right28Twice(Right56(x));
    Right14Twice(Right28(Right56(x)));
    Right7Twice(Right14(Right28(Right56(x))));
    Right7Twice(other);
    Right14Twice(other);
    Right28Twice(other);
    Right56Twice(other);
  }

  function ShiftLeft17(x: bv64): (y: bv64) { x << 17 }
  function ShiftLeft34(x: bv64): (y: bv64) { x << 34 }
  function Left17(x: bv64): (y: bv64) { Xor(x, ShiftLeft17(x)) }
  function Left34(x: bv64): (y: bv64) { Xor(x, ShiftLeft34(x)) }

  lemma ShiftLeft17Laws(x: bv64, y: bv64)
    ensures ShiftLeft17(Xor(x, y)) == Xor(ShiftLeft17(x), ShiftLeft17(y))
    ensures ShiftLeft17(ShiftLeft17(x)) == ShiftLeft34(x)
  {
  }

  lemma Left17Twice(x: bv64)
    ensures Left17(Left17(x)) == Left34(x)
  {
    ShiftLeft17Laws(x, ShiftLeft17(x));
    XorCancels(x, ShiftLeft17(x), ShiftLeft17(ShiftLeft17(x)));
    hide Xor, ShiftLeft17, ShiftLeft34;
  }

  lemma ShiftLeft34Laws(x: bv64, y: bv64)
    ensures ShiftLeft34(Xor(x, y)) == Xor(ShiftLeft34(x), ShiftLeft34(y))
    ensures ShiftLeft34(ShiftLeft34(x)) == 0
  {
  }

  lemma Left34Twice(x: bv64)
    ensures Left34(Left34(x)) == x
  {
    ShiftLeft34Laws(x, ShiftLeft34(x));
    XorCancels(x, ShiftLeft34(x), ShiftLeft34(ShiftLeft34(x)));
    XorZero(x);
    hide Xor, ShiftLeft17, ShiftLeft34;
  }

  function Unleft17(y: bv64): (x: bv64) { Left34(Left17(y)) }

  lemma Unleft17Undoes(x: bv64)
    ensures Unleft17(Left17(x)) == x && Left17(Unleft17(x)) == x
  {
    hide Left17, Left34;
    var other := Left17(Left34(x));
    Left17Twice(x);
    Left34Twice(x);
    Left17Twice(Left34(x));
    Left17Twice(other);
    Left34Twice(other);
  }

  /** One draw of the generator. */
  function Scramble(x: bv64): (y: bv64) {
    Left17(Right7(Left13(x)))
  }

  function Unscramble(y: bv64): (x: bv64) {
    Unleft13(Unright7(Unleft17(y)))
  }

  /** Each draw permutes the 64-bit words, and only the zero word is mapped to zero. */
  lemma ScrambleIsInvertible(x: bv64)
    ensures Unscramble(Scramble(x)) == x && Scramble(Unscramble(x)) == x
    ensures Scramble(x) == 0 <==> x == 0
  {
    ScrambleZero();
    hide Left13, Right7, Left17, Unleft13, Unright7, Unleft17;
    Unleft13Undoes(x);
    Unright7Undoes(Left13(x));
    Unleft17Undoes(Right7(Left13(x)));
    Unleft17Undoes(x);
    Unright7Undoes(Unleft17(x));
    Unleft13Undoes(Unright7(Unleft17(x)));
  }

  lemma ScrambleZero()
    ensures Scramble(0) == 0 && Unscramble(0) == 0
  {
  }

  /** The word after a number of draws. */
  function Drawn(start: bv64, n: nat): (word: bv64) {
    if n == 0 then start else Scramble(Drawn(start, n - 1))
  }

  /**
   No number of draws leads from a nonzero word to zero, where the generator would stay
   forever, and no two words meet.
   */
  lemma {:induction false} DrawsNeverDie(x: bv64, y: bv64, n: nat)
    ensures Drawn(x, n) == 0 <==> x == 0
    ensures Drawn(x, n) == Drawn(y, n) <==> x == y
    decreases n
  {
    hide Scramble, Unscramble;
    if n > 0 {
      DrawsNeverDie(x, y, n - 1);
      ScrambleIsInvertible(Drawn(x, n - 1));
      ScrambleIsInvertible(Drawn(y, n - 1));
    }
  }

  function Fraction(n: u64): (fraction: real)
    ensures 0.0 <= fraction <= 1.0
    ensures fraction == 0.0 <==> n == 0
  {
    n as real / U64_MAX as real
  }

  /** A word as a fraction of the greatest one. */
  function Unit(word: bv64): (unit: real)
    ensures 0.0 <= unit <= 1.0
    ensures unit == 0.0 <==> word == 0
  {
    Fraction(word as nat)
  }

  /** The first word for a seed. */
  function Seeded(seed: bv64): (word: bv64) {
    if seed == 0 then 1 else seed
  }

  lemma XorIs(x: bv64, y: bv64, z: bv64)
    requires z == x ^ y
    ensures Xor(x, y) == z
  {
  }

  lemma Left13Is(x: bv64, shifted: bv64)
    requires shifted == x << 13
    ensures ShiftLeft13(x) == shifted
  {
  }

  lemma Right7Is(x: bv64, shifted: bv64)
    requires shifted == x >> 7
    ensures ShiftRight7(x) == shifted
  {
  }

  lemma Left17Is(x: bv64, shifted: bv64)
    requires shifted == x << 17
    ensures ShiftLeft17(x) == shifted
  {
  }

  /**
   The draw: a word combined with its shift left by 13, that with its shift right by 7, that
   with its shift left by 17.
   */
  lemma ScrambleIsXorshift(x: bv64, a: bv64, y: bv64, b: bv64, z: bv64, c: bv64, w: bv64)
    requires a == x << 13 && y == x ^ a
    requires b == y >> 7 && z == y ^ b
    requires c == z << 17 && w == z ^ c
    ensures Scramble(x) == w
  {
    hide Xor, ShiftLeft13, ShiftRight7, ShiftLeft17;
    Left13Is(x, a);
    XorIs(x, a, y);
    Right7Is(y, b);
    XorIs(y, b, z);
    Left17Is(z, c);
    XorIs(z, c, w);
  }

  /** The first word after the smallest seed. */
  lemma FirstDraw()
    ensures Scramble(1) == 0x4082_2041
  {
  }

  /** The unit is the word's exact share of the greatest word. */
  lemma UnitIsExact(word: bv64)
    ensures Unit(word) * 0xFFFF_FFFF_FFFF_FFFF as real == word as nat as real
  {
    ExactFraction(word as nat);
  }

  lemma ExactFraction(n: u64)
    ensures Fraction(n) * U64_MAX as real == n as real
  {
  }

  /** The generator still moves. */
  predicate Alive(word: bv64) {
    word != 0
  }

  lemma StaysAlive(word: bv64)
    requires Alive(word)
    ensures Alive(Scramble(word)) && Unit(Scramble(word)) > 0.0
  {
    ScrambleIsInvertible(word);
    hide Scramble, Unscramble;
  }

  class Jitter {
    var word: bv64

    constructor (seed: bv64)
      ensures word == Seeded(seed) && word != 0
    {
      word := if seed == 0 then 1 else seed;
    }

    method NextUnit() returns (unit: real)
      modifies this
      ensures word == Scramble(old(word)) && unit == Unit(word)
      ensures 0.0 <= unit <= 1.0
      ensures old(word) != 0 ==> word != 0
    {
      hide Left13, Right7, Left17;
      ScrambleIsInvertible(word);
      word := Left13(word);
      word := Right7(word);
      word := Left17(word);
      unit := Unit(word);
    }
  }

  /**
   Any number of draws from any seed: the words are the iterated scramble, none of them is
   zero, and so no unit is.
   */
  method Draw(seed: bv64, n: nat) returns (units: seq<real>, word: bv64)
    ensures word == Drawn(Seeded(seed), n) && word != 0
    ensures |units| == n
    ensures forall i :: 0 <= i < n ==> units[i] == Unit(Drawn(Seeded(seed), i + 1)) && 0.0 < units[i] <= 1.0
  {
    hide Scramble, Unit;
    var jitter := new Jitter(seed);
    units := [];
    while |units| < n
      invariant |units| <= n && jitter.word != 0
      invariant jitter.word == Drawn(Seeded(seed), |units|)
      invariant forall i :: 0 <= i < |units| ==> units[i] == Unit(Drawn(Seeded(seed), i + 1)) && 0.0 < units[i] <= 1.0
    {
      var unit := jitter.NextUnit();
      units := units + [unit];
    }
    word := jitter.word;
  }
}
