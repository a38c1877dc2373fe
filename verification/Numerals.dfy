/** What a string of digits means, position by position. */
module Numerals {

  function Power(base: nat, n: nat): (p: nat) {
    if n == 0 then 1 else base * Power(base, n - 1)
  }

  /** Each digit times the power of the base for its place. */
  function Number(digits: seq<nat>, base: nat): (n: nat) {
    if digits == [] then 0 else digits[0] * Power(base, |digits| - 1) + Number(digits[1..], base)
  }

  /** The text writes these digits, each by its character in one alphabet or the other. */
  ghost predicate Spelling(text: string, digits: seq<nat>, lower: string, upper: string) {
    && |text| == |digits| && |lower| == |upper|
    && forall i :: 0 <= i < |text| ==>
      digits[i] < |lower| && (text[i] == lower[digits[i]] || text[i] == upper[digits[i]])
  }

  /** An optional plus sign and at least one digit, in total the number `n`. */
  ghost predicate Numeral(text: string, n: nat, lower: string, upper: string) {
    exists sign, figures, digits ::
      && (sign == "" || sign == "+") && figures != ""
      && text == sign + figures && Spelling(figures, digits, lower, upper) && Number(digits, |lower|) == n
  }

  lemma {:induction false} NumberOfMore(digits: seq<nat>, last: nat, base: nat)
    ensures Number(digits + [last], base) == base * Number(digits, base) + last
    decreases |digits|
  {
    var more := digits + [last];
    if digits == [] {
      assert more == [last] && more[1..] == [];
      assert Number(more, base) == last * Power(base, 0) + Number([], base);
    } else {
      assert more[1..] == digits[1..] + [last];
      NumberOfMore(digits[1..], last, base);
      Scaled(digits[0], base, |digits| - 1, Number(digits[1..], base));
      assert Number(more, base) == digits[0] * Power(base, |digits|) + Number(more[1..], base);
    }
  }

  lemma Scaled(digit: nat, base: nat, n: nat, rest: nat)
    ensures digit * Power(base, n + 1) + base * rest == base * (digit * Power(base, n) + rest)
  {
    var p := Power(base, n);
    assert Power(base, n + 1) == base * p;
    assert digit * (base * p) == base * (digit * p);
  }

  lemma LastDigit(digits: seq<nat>, base: nat)
    requires digits != []
    ensures Number(digits, base) == base * Number(digits[..|digits| - 1], base) + digits[|digits| - 1]
  {
    assert digits == digits[..|digits| - 1] + [digits[|digits| - 1]];
    NumberOfMore(digits[..|digits| - 1], digits[|digits| - 1], base);
  }
}
