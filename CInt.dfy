/**
 * C and C++ integer remainder. `a % b` in C truncates the quotient toward zero,
 * so the remainder takes the sign of `a`; Dafny's own `%` on int is Euclidean
 * and is never negative.
 */
module CInt {

  function Abs(a: int): (r: int)
    ensures r >= 0 && (r == a || r == -a)
  {
    if a < 0 then -a else a
  }

  /** The value of the C expression `a % b` (the divisor must not be zero). */
  function Rem(a: int, b: int): (r: int)
    requires b != 0
    ensures -Abs(b) < r < Abs(b)
    ensures a >= 0 ==> 0 <= r
    ensures a <= 0 ==> r <= 0
    ensures Abs(r) <= Abs(a)
  {
    if a >= 0 then
      ModBounds(a, Abs(b));
      a % Abs(b)
    else
      ModBounds(-a, Abs(b));
      -((-a) % Abs(b))
  }

  /** The Euclidean remainder of a natural number lies in [0, d) and does not exceed it. */
  lemma ModBounds(n: nat, d: int)
    requires d > 0
    ensures 0 <= n % d < d && n % d <= n
  {
    var q, m := n / d, n % d;
    assert n == d * q + m;
  }

  /** A value already strictly inside (-|b|, |b|) is left as it is. */
  lemma RemInRange(a: int, b: int)
    requires b != 0 && -Abs(b) < a < Abs(b)
    ensures Rem(a, b) == a
  {
  }

  /** |b| % b is zero. */
  lemma RemSelf(b: int)
    requires b != 0
    ensures Rem(Abs(b), b) == 0
  {
    assert Abs(b) == Abs(b) * 1 + 0;
  }

  /**
   * `a % 360` for an angle within two turns of zero: a value at or past a
   * full turn is brought back by one turn, toward zero.
   */
  lemma RemTurn(a: int)
    requires -720 < a < 720
    ensures Rem(a, 360) == if a >= 360 then a - 360 else if a <= -360 then a + 360 else a
  {
  }
}
