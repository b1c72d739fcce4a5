/**
 * Order facts about products and quotients of reals, stated once so that the
 * proofs using them stay linear.
 */
module RealOrder {

  lemma MulLeq(a: real, b: real, c: real)
    requires a <= b && c >= 0.0
    ensures a * c <= b * c
  {
    assert b * c - a * c == (b - a) * c;
  }

  lemma MulLess(a: real, b: real, c: real)
    requires a < b && c > 0.0
    ensures a * c < b * c
  {
    assert b * c - a * c == (b - a) * c;
  }

  /** Comparing `u / l` with `k` is comparing `u` with `k * l`. */
  lemma QuotientCompare(u: real, l: real, k: real)
    requires l > 0.0
    ensures u / l * l == u
    ensures u / l > k <==> u > k * l
    ensures u / l == k <==> u == k * l
    ensures u / l < k <==> u < k * l
  {
    var q := u / l;
    assert q * l == u;
    if q > k {
      MulLess(k, q, l);
    } else if q < k {
      MulLess(q, k, l);
    }
  }
}
