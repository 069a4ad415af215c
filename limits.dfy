/**
  Integer widths of the C program: `unsigned long int` counters (the scan limit,
  the lower threshold and the zero count) and `int` tallies (verbosity and the
  return code), on an LP64 target.
 */
module Limits {

  /** ULONG_MAX of a 64-bit `unsigned long`. */
  const ULONG_MAX: nat := 0xFFFF_FFFF_FFFF_FFFF

  /** INT_MAX of a 32-bit `int`. */
  const INT_MAX: nat := 0x7FFF_FFFF

  /** The values an `unsigned long int` can hold. */
  type ULong = x: int | 0 <= x <= ULONG_MAX

  function Min(a: int, b: int): (m: int)
    ensures m <= a && m <= b
    ensures m == a || m == b
  {
    if a <= b then a else b
  }
}
