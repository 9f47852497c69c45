/** Random draws, supplied by the caller instead of taken from a generator.

    A call `random.uniform(a, b)` is modelled by the value it returned, which
    lies between `a` and `b` (in either order). An angle drawn uniformly from
    [0, 2*pi) is only ever used through its cosine and sine, so it is given as
    a `Heading`. */
module Draws {
  /** `v` is a value `random.uniform(a, b)` can return. */
  predicate Drawn(a: real, b: real, v: real) {
    (a <= v <= b) || (b <= v <= a)
  }

  /** The cosine and sine of a drawn angle, taken as given values. */
  datatype Heading = Heading(cos: real, sin: real)

  /** What is assumed of a heading: both components are between -1 and 1. */
  predicate ValidHeading(h: Heading) {
    -1.0 <= h.cos <= 1.0 && -1.0 <= h.sin <= 1.0
  }

  lemma ProductNonnegative(x: real, y: real)
    requires x >= 0.0 && y >= 0.0
    ensures x * y >= 0.0
  {
  }

  /** Multiplying a bounded value by a non-negative factor keeps it bounded. */
  lemma ScaledBounds(lo: real, v: real, hi: real, k: real)
    requires lo <= v <= hi && k >= 0.0
    ensures lo * k <= v * k <= hi * k
  {
    ProductNonnegative(v - lo, k);
    ProductNonnegative(hi - v, k);
  }
}
