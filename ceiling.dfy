/**
 Rounding a real up to an integer, the way `math.ceil` does for finite values.
 Dafny only has `Floor`, so the ceiling is the negated floor of the negation.
 */
module Ceiling {

  /** The least integer that is not below `x`. */
  function Ceil(x: real): (n: int)
    ensures x <= n as real < x + 1.0
  {
    -((-x).Floor)
  }

  /** The ceiling is characterised by its two bounds: `n` is the ceiling of `x`
      exactly when `n - 1 < x <= n`. */
  lemma CeilIsUnique(x: real, n: int)
    ensures Ceil(x) == n <==> (x <= n as real && (n - 1) as real < x)
  {
    var c := Ceil(x);
    if x <= n as real && (n - 1) as real < x {
      // both c and n lie in [x, x + 1); two integers that close are equal
      assert c as real < x + 1.0 <= n as real + 1.0;
      assert n as real < x + 1.0 <= c as real + 1.0;
    }
  }

  /** Rounding up never reverses an ordering. */
  lemma CeilMonotone(x: real, y: real)
    requires x <= y
    ensures Ceil(x) <= Ceil(y)
  {
    assert (Ceil(x) - 1) as real < x <= y <= Ceil(y) as real;
  }

  /** An integer-valued real is its own ceiling. */
  lemma CeilOfInt(n: int)
    ensures Ceil(n as real) == n
  {
    CeilIsUnique(n as real, n);
  }

  /** The ceiling of a non-negative real is a natural number, and it is zero
      exactly at zero. */
  lemma CeilNonNegative(x: real)
    requires 0.0 <= x
    ensures Ceil(x) >= 0
    ensures Ceil(x) == 0 <==> x == 0.0
  {
    CeilMonotone(0.0, x);
    CeilOfInt(0);
  }

  /** A count proportional to a length: `Ceil(density * len)` grows with the
      density when the length is the same non-negative value on both sides.
      The length is passed once per side so that a caller can hand over each
      side's own term for it and get a conclusion about exactly those terms. */
  lemma ScaledCeilMonotone(d1: real, len1: real, d2: real, len2: real)
    requires 0.0 <= len1 && len1 == len2
    requires d1 <= d2
    ensures Ceil(d1 * len1) <= Ceil(d2 * len2)
    ensures Ceil(len1 * d1) <= Ceil(len2 * d2)
  {
    CeilMonotone(d1 * len1, d2 * len1);
  }
}
