/** Facts about Euclidean division by a positive modulus. */
module ModArith {

  lemma MulAtLeast(n: int, e: int)
    requires n > 0 && e >= 1
    ensures n * e >= n
  {
  }

  /** Quotient and remainder are the only pair with `a == n * d + r` and `0 <= r < n`. */
  lemma DivModUnique(a: int, n: int, d: int, r: int)
    requires n > 0 && 0 <= r < n && a == n * d + r
    ensures a / n == d && a % n == r
  {
    var d', r' := a / n, a % n;
    assert a == n * d' + r';
    var e := d' - d;
    assert n * e == n * d' - n * d;
    assert n * e == r - r';
    if e >= 1 {
      MulAtLeast(n, e);
    } else if e <= -1 {
      MulAtLeast(n, -e);
    }
  }

  /** Adding a multiple of `n` does not change a residue modulo `n`. */
  lemma ModShift(q: int, x: int, n: int)
    requires n > 0
    ensures (n * q + x) % n == x % n
  {
    assert n * q + x == n * (q + x / n) + x % n by {
      assert n * (q + x / n) == n * q + n * (x / n);
    }
    DivModUnique(n * q + x, n, q + x / n, x % n);
  }

  /** Reducing the left operand first does not change the residue of a sum. */
  lemma ModAddLeft(a: nat, b: nat, n: int)
    requires n > 0
    ensures (a % n + b) % n == (a + b) % n
  {
    ModShift(a / n, a % n + b, n);
    assert a + b == n * (a / n) + (a % n + b);
  }
}
