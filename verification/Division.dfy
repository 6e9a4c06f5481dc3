/** Quotients and remainders. */
module Division {

  lemma Divides(a: int, n: int, q: int, r: int)
    requires n > 0 && a == n * q + r && 0 <= r < n
    ensures a / n == q && a % n == r
  {
    var q', r' := a / n, a % n;
    assert n * (q - q') == r' - r by { assert n * (q - q') == n * q - n * q'; }
    AtLeastOnce(n, q - q');
  }

  lemma AtLeastOnce(n: int, k: int)
    requires n > 0
    ensures (k >= 1 ==> n * k >= n) && (k <= -1 ==> n * k <= -n)
  {
    if k >= 1 { assert n * (k - 1) >= 0; }
    if k <= -1 { assert n * (-k - 1) >= 0; }
  }

  lemma QuotientStep(y: int, n: int)
    requires n > 0 && y >= 0
    ensures (y + 1) / n == y / n + (if (y + 1) % n == 0 then 1 else 0)
  {
    var q, r := y / n, y % n;
    if r == n - 1 {
      assert y + 1 == n * (q + 1) + 0 by { assert n * (q + 1) == n * q + n; }
      Divides(y + 1, n, q + 1, 0);
    } else {
      Divides(y + 1, n, q, r + 1);
    }
  }
}
