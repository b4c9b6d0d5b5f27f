/** Rounding a quotient to the nearest integer, ties to even, as Python's `round` does. */
module Rounding {

  function RoundHalfEven(n: int, d: int): int
    requires d > 0
  {
    var q, r := n / d, n % d;
    if 2 * r < d || (2 * r == d && q % 2 == 0) then q else q + 1
  }

  /** Within half a unit; on a tie, even. */
  lemma Nearest(n: int, d: int)
    requires d > 0
    ensures var m := d * RoundHalfEven(n, d);
      && 2 * n - d <= 2 * m <= 2 * n + d
      && ((2 * m == 2 * n + d || 2 * m == 2 * n - d) ==> RoundHalfEven(n, d) % 2 == 0)
  {
    var q, r := n / d, n % d;
    assert n == d * q + r;
    assert d * (q + 1) == d * q + d;
  }

  lemma Scale(d: int, a: int, b: int)
    requires d > 0 && a > b
    ensures d * a >= d * b + d
  {
    assert d * a == d * (a - b - 1) + d * (b + 1);
  }

  lemma Monotone(n: int, m: int, d: int)
    requires d > 0 && n <= m
    ensures RoundHalfEven(n, d) <= RoundHalfEven(m, d)
  {
    var a, b := RoundHalfEven(n, d), RoundHalfEven(m, d);
    if n < m && a > b {
      Nearest(n, d);
      Nearest(m, d);
      Scale(d, a, b);
    }
  }
}
