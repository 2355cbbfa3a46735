/** Integer facts shared by the calendar and the request pacing. */
module Arith {
  /** Stepping `p` by one raises `p / k` by one exactly when `p + 1` is a multiple of `k`. */
  lemma DivStep(p: int, k: int)
    requires p >= 0 && (k == 4 || k == 5 || k == 100 || k == 400)
    ensures (p + 1) / k == p / k + (if (p + 1) % k == 0 then 1 else 0)
  {
    if k == 4 {
      assert p + 1 == 4 * ((p + 1) / 4) + (p + 1) % 4;
      assert p == 4 * (p / 4) + p % 4;
    } else if k == 5 {
      assert p + 1 == 5 * ((p + 1) / 5) + (p + 1) % 5;
      assert p == 5 * (p / 5) + p % 5;
    } else if k == 100 {
      assert p + 1 == 100 * ((p + 1) / 100) + (p + 1) % 100;
      assert p == 100 * (p / 100) + p % 100;
    } else {
      assert p + 1 == 400 * ((p + 1) / 400) + (p + 1) % 400;
      assert p == 400 * (p / 400) + p % 400;
    }
  }

  /** Division with remainder is unique: `k * q + r` with `0 <= r < k` divides to `q`, remainder `r`. */
  lemma DivModUnique(n: int, k: int, q: int, r: int)
    requires k > 0 && 0 <= r < k && n == k * q + r
    ensures n / k == q && n % k == r
  {
    var q', r' := n / k, n % k;
    assert n == k * q' + r' && 0 <= r' < k;
    assert k * (q' - q) == r - r';
    MulBound(k, q' - q);
  }

  /** A nonzero multiple of a positive `k` is at least `k` away from 0. */
  lemma MulBound(k: int, d: int)
    requires k > 0
    ensures d >= 1 ==> k * d >= k
    ensures d <= -1 ==> k * d <= -k
  {
  }
}
