/** Python's `round(x, 2)` on exact reals.

    `round(x, 2)` returns the multiple of 1/100 nearest to `x`; when `x` lies
    exactly halfway between two such multiples it returns the one whose
    hundredths count is even. The model works on exact reals, so a result
    is an integer number of hundredths divided by 100.
 */
module Rounding {

  /** The integer nearest to `y`, ties going to the even neighbour. */
  function RoundHalfEven(y: real): (n: int)
    ensures y - 0.5 <= n as real <= y + 0.5
    ensures (n as real == y - 0.5 || n as real == y + 0.5) ==> n % 2 == 0
  {
    var f := y.Floor;
    var d := y - f as real;
    if d < 0.5 then f
    else if d > 0.5 then f + 1
    else if f % 2 == 0 then f
    else f + 1
  }

  /** The two contract clauses of RoundHalfEven pin down a single integer:
      any integer within one half of `y` that is even on a tie is that result. */
  lemma RoundHalfEvenUnique(y: real, m: int)
    requires y - 0.5 <= m as real <= y + 0.5
    requires (m as real == y - 0.5 || m as real == y + 0.5) ==> m % 2 == 0
    ensures m == RoundHalfEven(y)
  {
  }

  /** An integer rounds to itself. */
  lemma RoundHalfEvenOfInt(k: int)
    ensures RoundHalfEven(k as real) == k
  {
  }

  /** Rounding never reverses the order of two values. */
  lemma RoundHalfEvenMonotone(y1: real, y2: real)
    requires y1 <= y2
    ensures RoundHalfEven(y1) <= RoundHalfEven(y2)
  {
  }

  /** `round(x, 2)`: the number of hundredths of the rounded value. */
  function Round2Hundredths(x: real): (k: int)
    ensures x - 0.005 <= k as real / 100.0 <= x + 0.005
  {
    RoundHalfEven(x * 100.0)
  }

  /** `round(x, 2)` as a value. */
  function Round2(x: real): (r: real)
    ensures HasTwoDecimals(r)
    ensures x - 0.005 <= r <= x + 0.005
  {
    Round2Hundredths(x) as real / 100.0
  }

  /** `x` is a whole number of hundredths. */
  predicate HasTwoDecimals(x: real) {
    (x * 100.0).Floor as real == x * 100.0
  }

  /** `round(_, 2)` leaves a value that already has two decimals unchanged. */
  lemma Round2OfHundredths(k: int)
    ensures Round2(k as real / 100.0) == k as real / 100.0
  {
  }

  /** Rounding to two decimals never reverses the order of two values. */
  lemma Round2Monotone(x1: real, x2: real)
    requires x1 <= x2
    ensures Round2(x1) <= Round2(x2)
  {
    RoundHalfEvenMonotone(x1 * 100.0, x2 * 100.0);
  }
}
