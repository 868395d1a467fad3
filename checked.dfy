/**
 Unsigned 64-bit integers as Rust has them, and the two checked operations the
 vault uses on its balance: `u64::checked_add` and `u64::checked_sub`.

 Both are written the way Rust's standard library implements them, on top of the
 wrapping (modulo 2^64) operation and its carry/borrow flag, so that their
 contracts say something the bodies do not spell out: the result is `Some` exactly
 when the mathematical result fits in 64 bits, and it is then that exact result.
 */
module Checked {

  /** The number of distinct `u64` values. */
  const TWO_TO_THE_64: int := 0x1_0000_0000_0000_0000

  /** `u64::MAX`. */
  const U64_MAX: int := 0xFFFF_FFFF_FFFF_FFFF

  /** A Rust `u64`. */
  type U64 = x: int | 0 <= x <= U64_MAX

  /** Rust's `Option`, as returned by the checked operations. */
  datatype Option<+T> = None | Some(value: T)

  /** `u64::wrapping_add`: the sum reduced modulo 2^64. */
  function WrappingAdd(a: U64, b: U64): (r: U64)
    ensures a + b <= U64_MAX ==> r == a + b
    ensures a + b > U64_MAX ==> r == a + b - TWO_TO_THE_64
  {
    (a + b) % TWO_TO_THE_64
  }

  /** `u64::wrapping_sub`: the difference reduced modulo 2^64. */
  function WrappingSub(a: U64, b: U64): (r: U64)
    ensures b <= a ==> r == a - b
    ensures b > a ==> r == a - b + TWO_TO_THE_64
  {
    (a - b) % TWO_TO_THE_64
  }

  /** `u64::checked_add`: the wrapped sum unless the addition carried out of bit 63. */
  function CheckedAdd(a: U64, b: U64): (r: Option<U64>)
    ensures r.Some? <==> a + b <= U64_MAX
    ensures r.Some? ==> r.value == a + b
  {
    var sum := WrappingAdd(a, b);
    if sum < a then None else Some(sum)
  }

  /** `u64::checked_sub`: the wrapped difference unless the subtraction borrowed. */
  function CheckedSub(a: U64, b: U64): (r: Option<U64>)
    ensures r.Some? <==> b <= a
    ensures r.Some? ==> r.value == a - b
  {
    if a < b then None else Some(WrappingSub(a, b))
  }

  /** Subtracting what was just added succeeds and gives back the original value. */
  lemma CheckedSubUndoesCheckedAdd(a: U64, b: U64)
    requires CheckedAdd(a, b).Some?
    ensures CheckedSub(CheckedAdd(a, b).value, b) == Some(a)
  {
  }
}
