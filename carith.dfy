/**
 * The C `int` that connect.cpp passes around (uids, pids, the policy) and
 * C's integer division and remainder, which truncate toward zero, unlike
 * Dafny's Euclidean `/` and `%`.
 */
module CArith {
  const INT_MIN: int := -0x8000_0000
  const INT_MAX: int := 0x7fff_ffff

  predicate IsCInt(x: int) {
    INT_MIN <= x <= INT_MAX
  }

  /** A 32-bit signed C `int`. */
  type CInt = x: int | IsCInt(x)

  /** Euclidean division of a natural number brackets it between multiples. */
  lemma DivBracket(n: nat, b: int)
    requires b > 0
    ensures 0 <= n / b
    ensures (n / b) * b <= n < (n / b) * b + b
  {
  }

  lemma NegateProduct(m: int, b: int)
    ensures (-m) * b == -(m * b)
  {
  }

  /** C's `a / b` for a positive divisor: the quotient truncated toward zero. */
  function CDiv(a: int, b: int): (q: int)
    requires b > 0
    ensures a >= 0 ==> 0 <= q && q * b <= a < q * b + b
    ensures a < 0 ==> q <= 0 && q * b - b < a <= q * b
  {
    if a >= 0 then
      var q := a / b;
      DivBracket(a, b);
      q
    else
      var m := (-a) / b;
      DivBracket(-a, b);
      NegateProduct(m, b);
      assert (-m) * b - b < a <= (-m) * b;
      -m
  }

  /** C's `a % b` for a positive divisor: the remainder takes the sign of `a`. */
  function CRem(a: int, b: int): (r: int)
    requires b > 0
    ensures CDiv(a, b) * b + r == a
    ensures a >= 0 ==> 0 <= r < b
    ensures a < 0 ==> -b < r <= 0
  {
    if a >= 0 then a % b else -((-a) % b)
  }
}
