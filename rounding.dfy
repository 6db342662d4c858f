/** Python's built-in `round`, over exact reals.
    `round(x)` returns the integer nearest to `x`, and on a tie the even one;
    `round(x, 1)` rounds to one decimal place in the same way. Binary floating
    point is not modelled: these are the exact-real versions of the two calls. */
module Rounding {

  /** `round(x)`: the nearest integer, ties to the even neighbour. */
  function Round(x: real): (n: int)
    ensures x - 0.5 <= n as real <= x + 0.5
    ensures (n as real - x == 0.5 || x - n as real == 0.5) ==> n % 2 == 0
  {
    var f := x.Floor;
    var d := x - f as real;
    if d < 0.5 then f
    else if d > 0.5 then f + 1
    else if f % 2 == 0 then f
    else f + 1
  }

  /** `round(x, 1)`: the nearest multiple of one tenth. */
  function RoundTenth(x: real): (r: real)
    ensures x - 0.05 <= r <= x + 0.05
    ensures (r * 10.0).Floor as real == r * 10.0
  {
    Round(x * 10.0) as real / 10.0
  }

  /** No other integer is closer to `x` than `Round(x)`. */
  lemma RoundIsNearest(x: real, m: int)
    ensures Abs(Round(x) as real - x) <= Abs(m as real - x)
  {
    var n := Round(x);
    if m < n {
      assert m as real <= n as real - 1.0;
    } else if m > n {
      assert m as real >= n as real + 1.0;
    }
  }

  function Abs(x: real): (a: real)
    ensures a >= 0.0 && (a == x || a == -x)
  {
    if x < 0.0 then -x else x
  }
}
