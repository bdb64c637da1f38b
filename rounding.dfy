/**
 * Rounding of a real to the nearest integer with ties going to the even
 * neighbour, which is what Python's built-in `round` does.
 */
module Rounding {

  /** The nearest integer to `x`; of two equally near integers, the even one. */
  function RoundHalfEven(x: real): (n: int)
    ensures -0.5 <= n as real - x <= 0.5
    ensures (n as real - x == 0.5 || x - n as real == 0.5) ==> n % 2 == 0
  {
    var fl := x.Floor;
    var frac := x - fl as real;
    if frac < 0.5 then fl
    else if frac > 0.5 then fl + 1
    else if fl % 2 == 0 then fl
    else fl + 1
  }

  /** The two properties of RoundHalfEven determine its result. */
  lemma RoundHalfEvenUnique(x: real, n: int)
    requires -0.5 <= n as real - x <= 0.5
    requires (n as real - x == 0.5 || x - n as real == 0.5) ==> n % 2 == 0
    ensures n == RoundHalfEven(x)
  {
  }

  /** Rounding never reverses the order of two reals. */
  lemma RoundHalfEvenMonotone(x: real, y: real)
    requires x <= y
    ensures RoundHalfEven(x) <= RoundHalfEven(y)
  {
  }

  /** An integral real rounds to itself. */
  lemma RoundHalfEvenOfInt(k: int)
    ensures RoundHalfEven(k as real) == k
  {
    RoundHalfEvenUnique(k as real, k);
  }
}
