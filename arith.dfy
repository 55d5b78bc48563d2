/** Bounds on an exact quotient of reals, shared by the exam score and the dashboard average. */
module Arith {

  /** A quotient by a positive divisor keeps the bounds its dividend has in multiples of the divisor. */
  lemma DivisionBounds(s: real, n: real, lo: real, hi: real)
    requires n > 0.0 && lo * n <= s <= hi * n
    ensures lo <= s / n <= hi
  {
    var q := s / n;
    assert q * n == s;
    assert (q - lo) * n == s - lo * n;
    assert (hi - q) * n == hi * n - s;
  }
}
