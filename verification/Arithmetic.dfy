/** Facts about division that the modular clocks of the kernel need. */
module Arithmetic {

  lemma MulGrows(n: int, a: int)
    requires n > 0
    ensures a >= 1 ==> n * a >= n
    ensures a <= -1 ==> n * a <= -n
  {
    if a >= 1 {
      assert n * a == n * (a - 1) + n;
      assert n * (a - 1) >= 0;
    } else if a <= -1 {
      assert n * a == n * (a + 1) - n;
      assert n * (-a - 1) >= 0;
      assert n * (a + 1) == -(n * (-a - 1));
    }
  }

  /** Quotient and remainder are determined by x == n * q + r with 0 <= r < n. */
  lemma DivModUnique(x: int, n: int, q: int, r: int)
    requires n > 0 && x == n * q + r && 0 <= r < n
    ensures x / n == q && x % n == r
  {
    var d := x / n - q;
    assert x == n * (x / n) + x % n;
    assert n * d == n * (x / n) - n * q;
    assert n * d == r - x % n;
    MulGrows(n, d);
  }

  /** Adding n moves to the next period and keeps the remainder. */
  lemma NextPeriod(x: int, n: int)
    requires n > 0
    ensures (x + n) / n == x / n + 1 && (x + n) % n == x % n
  {
    assert x == n * (x / n) + x % n;
    assert n * (x / n + 1) == n * (x / n) + n;
    DivModUnique(x + n, n, x / n + 1, x % n);
  }

  lemma SmallMod(x: int, n: int)
    requires 0 <= x < n
    ensures x / n == 0 && x % n == x
  {
    DivModUnique(x, n, 0, x);
  }

  /** One step of counting modulo n. */
  lemma ModStep(x: int, n: int)
    requires n > 0
    ensures x % n + 1 < n ==> (x + 1) % n == x % n + 1 && (x + 1) / n == x / n
    ensures x % n + 1 == n ==> (x + 1) % n == 0 && (x + 1) / n == x / n + 1
  {
    assert x == n * (x / n) + x % n;
    if x % n + 1 < n {
      DivModUnique(x + 1, n, x / n, x % n + 1);
    } else {
      assert n * (x / n + 1) == n * (x / n) + n;
      DivModUnique(x + 1, n, x / n + 1, 0);
    }
  }
}
