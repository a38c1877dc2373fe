/** Success-or-nothing and success-or-failure values, and the machine integers of the service. */
module Wrappers {

  datatype Option<+T> = None | Some(value: T)

  datatype Result<+R, +E> = Success(value: R) | Failure(error: E)

  const U64_MAX: nat := 0xFFFF_FFFF_FFFF_FFFF

  type u64 = n: nat | n <= U64_MAX
  type u32 = n: nat | n <= 0xFFFF_FFFF

  /** Rust's `checked_add` on `u64`. */
  function CheckedAdd(a: u64, b: u64): (sum: Option<u64>) {
    if a + b <= U64_MAX then Some(a + b) else None
  }

  /** Rust's `checked_sub` on `u64`. */
  function CheckedSub(a: u64, b: u64): (difference: Option<u64>) {
    if b <= a then Some(a - b) else None
  }

  function Min(a: nat, b: nat): (m: nat) {
    if a <= b then a else b
  }

  /** Strictly increasing numbers. */
  ghost predicate Increasing(xs: seq<nat>) {
    forall i, j :: 0 <= i < j < |xs| ==> xs[i] < xs[j]
  }

  /** The last number of a sequence, 0 when there is none. */
  function Last(xs: seq<nat>): (last: nat) {
    if xs == [] then 0 else xs[|xs| - 1]
  }
}
