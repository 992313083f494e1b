/** Facts about integer division by a positive number, as Java's and Dafny's `/` compute it on non-negative operands. */
module Arith {
  /** Division undoes multiplication when the remainder is below the divisor. */
  lemma QuotientOf(d: int, k: int, rest: int)
    requires 0 <= rest < d
    ensures (d * k + rest) / d == k
  {
    var q := (d * k + rest) / d;
    var m := (d * k + rest) % d;
    assert d * q + m == d * k + rest;
    assert d * (q - k) == rest - m by {
      assert d * (q - k) == d * q - d * k;
    }
    if q > k {
      ProductAtLeast(d, q - k);
    } else if q < k {
      ProductAtLeast(d, k - q);
    }
  }

  lemma ProductAtLeast(d: int, e: int)
    requires d > 0 && e >= 1
    ensures d * e >= d
  {
    assert d * e == d + d * (e - 1);
  }

  /** Division by a positive number keeps the order of non-negative dividends. */
  lemma DivMonotone(a: int, b: int, d: int)
    requires 0 <= a <= b && d > 0
    ensures a / d <= b / d
  {
    var qa, qb := a / d, b / d;
    assert d * qa + a % d == a && d * qb + b % d == b;
    assert d * (qa - qb) == d * qa - d * qb;
    if qa > qb {
      ProductAtLeast(d, qa - qb);
    }
  }
}
