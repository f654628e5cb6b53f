// Numeric conversions that the game's arithmetic relies on.
module Numeric {

  /** Python's int() applied to a float: truncation toward zero. */
  function Trunc(x: real): (n: int)
    ensures 0.0 <= x ==> 0 <= n && n as real <= x < n as real + 1.0
    ensures x < 0.0 ==> n <= 0 && x <= n as real < x + 1.0
  {
    if 0.0 <= x then x.Floor else -((-x).Floor)
  }

  /** Python's max() on two integers. */
  function MaxInt(a: int, b: int): int
  {
    if a >= b then a else b
  }

  /** Python's max() on two numbers compared as reals. */
  function MaxReal(a: real, b: real): real
  {
    if a >= b then a else b
  }

  /** Dividing a non-negative amount by a factor of at least one never makes it larger. */
  lemma DivideByAtLeastOne(a: real, m: real)
    requires 0.0 <= a && 1.0 <= m
    ensures 0.0 <= a / m <= a
  {
    var q := a / m;
    assert q * m == a;
  }

  /** Scaling a non-negative amount by a factor of at least one never makes it smaller. */
  lemma ScaleByAtLeastOne(a: real, m: real)
    requires 0.0 <= a && 1.0 <= m
    ensures a <= a * m
  {
    assert a * m - a == a * (m - 1.0);
  }
}
