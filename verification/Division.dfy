/** Rounding down to whole units: facts about quotients of naturals. */
module Division {
  const MICROSECONDS := 1_000_000

  type Positive = x: int | x > 0 witness 1

  /** Whole microseconds of a number of frames. */
  function Duration(frames: nat, rate: Positive): nat { frames * MICROSECONDS / rate }

  lemma DivisionBounds(n: nat, d: Positive)
    ensures n / d * d <= n < n / d * d + d
  {
  }

  /** A quotient is at most `q` exactly when the dividend stays below `q + 1` divisors. */
  lemma QuotientAtMost(n: nat, d: Positive, q: int)
    ensures n / d <= q <==> n < q * d + d
  {
    DivisionBounds(n, d);
    ScaleOrder(n / d, q, d);
    ScaleOrder(q + 1, n / d, d);
    assert (q + 1) * d == q * d + d;
  }

  lemma ScaleOrder(x: int, y: int, d: Positive)
    ensures x <= y ==> x * d <= y * d
  {
    if x <= y { assert (y - x) * d >= 0; }
  }

  lemma QuotientAtLeast(n: nat, d: Positive, q: int)
    ensures n / d >= q <==> n >= q * d
  {
    QuotientAtMost(n, d, q - 1);
    assert (q - 1) * d + d == q * d;
  }

  lemma QuotientIs(n: nat, d: Positive, q: nat, r: nat)
    requires n == q * d + r && r < d
    ensures n / d == q && n % d == r
  {
    QuotientAtMost(n, d, q);
    QuotientAtLeast(n, d, q);
  }

  lemma MultipleDivides(k: nat, d: Positive)
    ensures k * d / d == k && k * d % d == 0
  {
    QuotientIs(k * d, d, k, 0);
  }
}
