/** Comparing quotients of reals with bounds, shared by the contour filter, the
    anchor means and the grid lookup. */
module Ratios {

  /** Comparing a quotient with a bound is comparing the dividend with the scaled bound. */
  lemma QuotientBound(n: real, d: real, k: real)
    requires d > 0.0
    ensures n / d >= k <==> n >= k * d
    ensures n / d <= k <==> n <= k * d
  {
    var q := n / d;
    assert q * d == n;
    if q >= k { assert q * d >= k * d; }
    if q <= k { assert q * d <= k * d; }
    if q < k { assert q * d < k * d; }
    if q > k { assert q * d > k * d; }
  }
}
