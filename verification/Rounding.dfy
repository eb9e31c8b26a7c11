/** Rounding to the nearest integer, halves to the even one. */
module Rounding {

  /** n / d rounded, for a positive d. */
  function RoundHalfEven(n: int, d: int): int
    requires d > 0
  {
    var q, r := n / d, n % d;
    if 2 * r < d || (2 * r == d && q % 2 == 0) then q else q + 1
  }
}
