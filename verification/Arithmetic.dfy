/** Facts about products and remainders that the solver does not find by itself. */
module Arithmetic {
  lemma Grows(x: nat, y: nat, z: nat)
    requires x <= y
    ensures x * z <= y * z
  {
    assert (y - x) * z >= 0;
  }

  /** A multiple of `b` is zero or at least `b` away from it. */
  lemma Multiple(b: int, d: int)
    requires b >= 0
    ensures d >= 1 ==> b * d >= b
    ensures d <= -1 ==> b * d <= -b
  {
    if d >= 1 {
      assert b * d == b * (d - 1) + b;
    } else if d <= -1 {
      assert b * d == b * (d + 1) - b;
    }
  }

  /** Quotient and remainder are determined by what they make up. */
  lemma DivideBy(x: int, b: int, q: int, r: int)
    requires 0 <= r < b && x == b * q + r
    ensures x / b == q && x % b == r
  {
    Multiple(b, x / b - q);
    assert b * (x / b - q) == b * (x / b) - b * q;
  }

  lemma DivMod(x: int, n: int)
    requires n > 0
    ensures x == n * (x / n) + x % n && 0 <= x % n < n
  {
  }

  lemma AddMultiple(x: int, n: int, d: int)
    requires n > 0
    ensures (x + n * d) % n == x % n
  {
    DivMod(x, n);
    Distributes(n, x / n, d);
    DivideBy(x + n * d, n, x / n + d, x % n);
  }

  lemma Distributes(n: int, a: int, b: int)
    ensures n * (a + b) == n * a + n * b
  {
  }
}
