/**
 * Python's `round(x, 4)` over exact reals (round half to even at the fourth
 * decimal), and the round-down variant used where a rounded quantity must
 * stay within a bound.
 *
 * `Round4` and `Floor4` are specification functions defined by the property
 * that picks their value; `Round4Is` and `Floor4Is` give the value a program
 * computes (`RoundHalfEven` and `.Floor` on `x * 10000`).
 */
module Rounding {

  /** `n` is the integer nearest to `y`, a tie going to the even neighbour. */
  predicate NearestEven(y: real, n: int) {
    && -0.5 <= n as real - y <= 0.5
    && ((n as real - y == 0.5 || n as real - y == -0.5) ==> n % 2 == 0)
  }

  /** Python's `round(y)`: the nearest integer, ties to even. */
  function RoundHalfEven(y: real): (n: int)
    ensures NearestEven(y, n)
  {
    var f := y.Floor;
    var d := y - f as real;
    if d < 0.5 then f
    else if d > 0.5 then f + 1
    else if f % 2 == 0 then f
    else f + 1
  }

  /** At most one integer is nearest to `y` with ties to even. */
  lemma NearestEvenUnique(y: real, m: int, n: int)
    requires NearestEven(y, m) && NearestEven(y, n)
    ensures m == n
  {
    assert -1 <= m - n <= 1 by { assert -1.0 <= (m - n) as real <= 1.0; }
    if m != n {
      assert false;
    }
  }

  /** The integer nearest to `y`, ties to even, chosen by that property alone. */
  ghost function Nearest(y: real): int {
    assert NearestEven(y, RoundHalfEven(y));
    var n: int :| NearestEven(y, n); n
  }

  /** The largest integer not above `y`, chosen by that property alone. */
  ghost function Below(y: real): int {
    assert y.Floor as real <= y < y.Floor as real + 1.0;
    var n: int :| n as real <= y < n as real + 1.0; n
  }

  /** `round(x, 4)`: the multiple of 0.0001 nearest to `x`, ties to an even last digit. */
  ghost function Round4(x: real): (r: real)
    ensures -0.00005 <= r - x <= 0.00005
  {
    assert NearestEven(x * 10000.0, RoundHalfEven(x * 10000.0));
    Nearest(x * 10000.0) as real / 10000.0
  }

  /** `x` rounded down to a multiple of 0.0001. */
  ghost function Floor4(x: real): (r: real)
    ensures r <= x < r + 0.0001
  {
    assert (x * 10000.0).Floor as real <= x * 10000.0 < (x * 10000.0).Floor as real + 1.0;
    Below(x * 10000.0) as real / 10000.0
  }

  /** The value of `round(x, 4)`, computed from `x * 10000`. */
  lemma Round4Is(x: real)
    ensures Round4(x) == RoundHalfEven(x * 10000.0) as real / 10000.0
  {
    var y := x * 10000.0;
    assert NearestEven(y, RoundHalfEven(y));
    NearestEvenUnique(y, Nearest(y), RoundHalfEven(y));
  }

  /** The value of `x` rounded down at four places, computed from `x * 10000`. */
  lemma Floor4Is(x: real)
    ensures Floor4(x) == (x * 10000.0).Floor as real / 10000.0
  {
    var y := x * 10000.0;
    assert y.Floor as real <= y < y.Floor as real + 1.0;
    assert Below(y) == y.Floor;
  }

  /** `round(x, 4)` as a program computes it. */
  function Round4Of(x: real): (r: real)
    ensures r == Round4(x)
  {
    Round4Is(x);
    RoundHalfEven(x * 10000.0) as real / 10000.0
  }

  /** `x` rounded down at four places, as a program computes it. */
  function Floor4Of(x: real): (r: real)
    ensures r == Floor4(x)
  {
    Floor4Is(x);
    (x * 10000.0).Floor as real / 10000.0
  }

  /** Rounding down never exceeds rounding to nearest. */
  lemma Floor4BelowRound4(x: real)
    ensures Floor4(x) <= Round4(x)
  {
    Round4Is(x);
    Floor4Is(x);
    assert RoundHalfEven(x * 10000.0) >= (x * 10000.0).Floor;
  }
}
