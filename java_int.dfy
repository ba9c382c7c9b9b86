/**
 * Java's 32-bit `int`: the range, two's-complement wrap-around of `+`, and
 * the remainder operator `%`, which truncates toward zero (Dafny's `%` is
 * Euclidean, so the two differ on negative dividends).
 */
module JavaInt {

  const MinInt: int := -0x8000_0000
  const MaxInt: int := 0x7FFF_FFFF
  const Modulus: int := 0x1_0000_0000

  predicate InRange(x: int) {
    MinInt <= x <= MaxInt
  }

  /** The `int` Java stores for the mathematical value `x`. */
  function Wrap(x: int): (r: int)
    ensures InRange(r)
    ensures InRange(x) ==> r == x
    ensures x == MaxInt + 1 ==> r == MinInt
  {
    (x - MinInt) % Modulus + MinInt
  }

  /** Java's `a % b` for `b > 0`: the result takes the sign of `a`. */
  function Rem(a: int, b: int): (r: int)
    requires b > 0
    ensures a >= 0 ==> 0 <= r < b && r == a % b
    ensures a < 0 ==> -b < r <= 0 && -r == (-a) % b
  {
    if a >= 0 then a % b else -((-a) % b)
  }
}
