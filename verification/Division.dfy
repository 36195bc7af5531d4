/** Facts about Dafny's integer quotient and remainder, which for a positive
    divisor are the floor and the non-negative remainder. */
module Division {
  /** Quotient and remainder are unique. */
  lemma DivisionIs(x: int, n: int, q: int, r: int)
    requires n > 0 && x == n * q + r && 0 <= r < n
    ensures x / n == q && x % n == r
  {
    var d := x / n - q;
    assert n * d == r - x % n;
    assert d > 0 ==> n * d >= n;
    assert d < 0 ==> n * d <= -n;
  }

  /** A quotient steps up exactly on a multiple of the divisor. */
  lemma QuotientStep(x: int, shift: int, n: int)
    requires n > 1 && shift % n == 0
    ensures (x - shift) / n - (x - shift - 1) / n == if x % n == 0 then 1 else 0
  {
    var k, q, r := shift / n, x / n, x % n;
    assert shift == n * k && x == n * q + r;
    assert x - shift == n * (q - k) + r;
    DivisionIs(x - shift, n, q - k, r);
    if r == 0 {
      assert x - shift - 1 == n * (q - k - 1) + (n - 1);
      DivisionIs(x - shift - 1, n, q - k - 1, n - 1);
    } else {
      DivisionIs(x - shift - 1, n, q - k, r - 1);
    }
  }
}
