/** Facts about integer quotients that the solver does not find by itself. */
module Arithmetic {
  lemma QuotientBounds(a: int, m: int)
    requires m > 0
    ensures m * (a / m) <= a < m * (a / m) + m
  {
  }

  lemma Scaled(j: int, k: int, m: nat)
    requires j <= k
    ensures j * m <= k * m
  {
    assert (k - j) * m >= 0;
  }

  lemma QuotientAtLeast(a: int, m: int, k: int)
    requires m > 0
    ensures a / m >= k <==> a >= k * m
  {
    QuotientBounds(a, m);
    var q := a / m;
    if q >= k {
      Scaled(k, q, m);
    } else {
      Scaled(q + 1, k, m);
      assert (q + 1) * m == m * q + m;
    }
    assert q * m == m * q;
  }

  lemma QuotientMonotone(a: int, b: int, m: int)
    requires m > 0 && a <= b
    ensures a / m <= b / m
  {
    QuotientBounds(a, m);
    QuotientAtLeast(b, m, a / m);
    assert (a / m) * m == m * (a / m);
  }
}
