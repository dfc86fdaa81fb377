/** Division facts the queue arithmetic and the sample normalization need, proved in small steps. */
module Arithmetic {
  lemma DivMod(x: nat, d: nat)
    requires d > 0
    ensures x == (x / d) * d + x % d && 0 <= x % d < d
  {
  }

  lemma MulAtLeast(k: int, d: nat)
    requires k >= 1
    ensures k * d >= d
  {
    assert (k - 1) * d >= 0;
  }

  lemma MulSub(a: int, b: int, d: int)
    ensures a * d - b * d == (a - b) * d
  {
  }

  /** Division is determined by a quotient and a remainder in range. */
  lemma DivUnique(x: nat, d: nat, q: nat, r: nat)
    requires d > 0 && r < d && x == q * d + r
    ensures x / d == q && x % d == r
  {
    var q', r' := x / d, x % d;
    DivMod(x, d);
    MulSub(q', q, d);
    MulSub(q, q', d);
    if q' > q {
      MulAtLeast(q' - q, d);
    } else if q' < q {
      MulAtLeast(q - q', d);
    }
  }

  lemma DivMonotone(a: nat, b: nat, d: nat)
    requires d > 0 && a <= b
    ensures a / d <= b / d
  {
    var qa, qb := a / d, b / d;
    DivMod(a, d);
    DivMod(b, d);
    MulSub(qa, qb, d);
    if qa > qb {
      MulAtLeast(qa - qb, d);
    }
  }

  /** Removing `n` whole groups of `d` removes `n` from the quotient. */
  lemma DivSub(a: nat, n: nat, d: nat)
    requires d > 0 && n * d <= a
    ensures a / d >= n
    ensures (a - n * d) / d == a / d - n
  {
    var q, r := a / d, a % d;
    DivMod(a, d);
    MulSub(q, n, d);
    MulSub(n, q, d);
    if q < n {
      MulAtLeast(n - q, d);
    }
    DivUnique(a - n * d, d, q - n, r);
  }

  /** A quotient by a positive divisor whose magnitude the dividend does not reach lies in [-1, 1). */
  lemma RealQuotientBounds(a: real, d: real)
    requires d > 0.0 && -d <= a < d
    ensures -1.0 <= a / d < 1.0
  {
    var q := a / d;
    assert q * d == a;
    if q >= 1.0 {
      assert false;
    }
    if q < -1.0 {
      assert false;
    }
  }

  /** Reducing the first summand modulo `m` first does not change the sum's residue. */
  lemma ModAdd(a: nat, b: nat, m: nat)
    requires m > 0
    ensures (a % m + b) % m == (a + b) % m
  {
    var x := a % m + b;
    DivMod(a, m);
    DivMod(x, m);
    assert (a / m + x / m) * m == (a / m) * m + (x / m) * m;
    DivUnique(a + b, m, a / m + x / m, x % m);
  }
}
