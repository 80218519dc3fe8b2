/** Multiplication and rounding division by a variable, in small steps. */
module Arithmetic {
  lemma {:induction false} MulOrder(d: nat, a: int, b: int)
    requires a <= b
    ensures d * a <= d * b
  {
    if d > 0 {
      MulOrder(d - 1, a, b);
      assert d * a == (d - 1) * a + a && d * b == (d - 1) * b + b;
    }
  }

  lemma Division(n: int, d: int)
    requires d > 0
    ensures n == d * (n / d) + n % d && 0 <= n % d < d
  {
  }

  lemma SmallMultiple(d: int, k: int)
    requires 0 < d && -d < d * k < d
    ensures k == 0
  {
    if k >= 1 {
      MulOrder(d, 1, k);
    } else if k <= -1 {
      MulOrder(d, k, -1);
    }
  }

  lemma DivUnique(n: int, d: int, q: int, r: int)
    requires n == d * q + r && 0 <= r < d
    ensures n / d == q && n % d == r
  {
    Division(n, d);
    assert d * (q - n / d) == n % d - r;
    SmallMultiple(d, q - n / d);
  }

  lemma QuotientBounds(n: nat, d: nat)
    requires d > 0
    ensures 0 <= n / d <= n
  {
    Division(n, d);
    MulOrder(n + 1, 1, d);
    var q := n / d;
    if q < 0 {
      MulOrder(d, q, -1);
    }
    if q > n {
      MulOrder(d, n + 1, q);
    }
  }

  lemma QuotientBelow(n: nat, d: nat, m: nat)
    requires d > 0 && n < d * m
    ensures n / d < m
  {
    Division(n, d);
    if n / d >= m {
      MulOrder(d, m, n / d);
    }
  }

  lemma DivMultiple(k: int, x: int, d: int)
    requires d > 0
    ensures (d * k + x) / d == k + x / d
  {
    Division(x, d);
    assert d * k + x == d * (k + x / d) + x % d;
    DivUnique(d * k + x, d, k + x / d, x % d);
  }

  lemma ModSmall(x: nat, m: nat)
    requires x < m
    ensures x % m == x
  {
    DivUnique(x, m, 0, x);
  }

  // Counting up modulo m.
  lemma ModNext(x: nat, m: nat)
    requires m > 0
    ensures (x + 1) % m == if x % m == m - 1 then 0 else x % m + 1
  {
    Division(x, m);
    if x % m == m - 1 {
      assert x + 1 == m * (x / m + 1);
      DivUnique(x + 1, m, x / m + 1, 0);
    } else {
      DivUnique(x + 1, m, x / m, x % m + 1);
    }
  }
}
