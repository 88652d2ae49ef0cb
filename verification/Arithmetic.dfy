/** Numbers written with two digits: q * n + r, where r is below n. */
module Arithmetic {

  lemma TimesGrows(q: int, m: int, n: nat)
    requires q <= m
    ensures q * n <= m * n
  {}

  lemma TimesGrowsBy(q: int, m: int, n: nat)
    requires q < m
    ensures q * n + n <= m * n
  {
    TimesGrows(q + 1, m, n);
    assert (q + 1) * n == q * n + n;
  }

  /** Such a number is in the range up to m * n exactly when q is in the range up to m. */
  lemma DigitInRange(q: int, r: int, n: nat, m: int)
    requires 0 <= r < n
    ensures 0 <= q * n + r < m * n <==> 0 <= q < m
  {
    if q < 0 { TimesGrows(q, -1, n); }
    else if q >= m { TimesGrows(m, q, n); }
    else { TimesGrowsBy(q, m, n); TimesGrows(0, q, n); }
  }

  lemma SameDigits(n: nat, q: int, r: int, q': int, r': int)
    requires 0 <= r < n && 0 <= r' < n && q * n + r == q' * n + r'
    ensures q == q' && r == r'
  {
    if q < q' { TimesGrowsBy(q, q', n); }
    if q' < q { TimesGrowsBy(q', q, n); }
  }

  lemma Divide(m: int, n: nat)
    requires n > 0
    ensures (m / n) * n + m % n == m && 0 <= m % n < n
  {}

  lemma UniqueDigits(n: nat, q: int, r: int)
    requires 0 <= r < n
    ensures (q * n + r) / n == q && (q * n + r) % n == r
  {
    var m := q * n + r;
    Divide(m, n);
    SameDigits(n, q, r, m / n, m % n);
  }
}
