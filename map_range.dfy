/** The range mapping that the status bar imports from the engine's math
    crate, whose body lies outside the modelled file. It is taken here to be
    the unclamped linear formula: a value in one interval is carried to the
    corresponding value in another interval. */
module BevyMath {

  /** Maps `value` from the interval `from` onto the interval `to`.
      The point (value, r) lies on the straight line through
      (from.0, to.0) and (from.1, to.1). The formula divides by
      `from.1 - from.0`, so a degenerate source interval is excluded. */
  function MapRange(value: real, from: (real, real), to: (real, real)): (r: real)
    requires from.0 != from.1
    ensures (r - to.0) * (from.1 - from.0) == (value - from.0) * (to.1 - to.0)
  {
    to.0 + (value - from.0) * (to.1 - to.0) / (from.1 - from.0)
  }

  /** The ends of the source interval go to the ends of the target interval. */
  lemma MapRangeEndpoints(from: (real, real), to: (real, real))
    requires from.0 != from.1
    ensures MapRange(from.0, from, to) == to.0
    ensures MapRange(from.1, from, to) == to.1
  {
  }

  /** For increasing intervals the mapping preserves and reflects order,
      strictly and non-strictly. */
  lemma MapRangeMonotonic(x: real, y: real, from: (real, real), to: (real, real))
    requires from.0 < from.1 && to.0 < to.1
    ensures x < y <==> MapRange(x, from, to) < MapRange(y, from, to)
    ensures x <= y <==> MapRange(x, from, to) <= MapRange(y, from, to)
  {
  }

  /** Mapping back from the target interval to the source interval undoes
      the mapping. */
  lemma MapRangeInverse(x: real, from: (real, real), to: (real, real))
    requires from.0 != from.1 && to.0 != to.1
    ensures MapRange(MapRange(x, from, to), to, from) == x
  {
    var r := MapRange(x, from, to);
    var back := MapRange(r, to, from);
    var w, h := from.1 - from.0, to.1 - to.0;
    assert (r - to.0) * w == (x - from.0) * h;
    assert (back - from.0) * h == (r - to.0) * w;
    assert (back - from.0) * h == (x - from.0) * h;
  }

  /** A value inside the source interval lands inside the target interval,
      and only such a value does. */
  lemma MapRangeWithin(x: real, from: (real, real), to: (real, real))
    requires from.0 < from.1 && to.0 < to.1
    ensures from.0 <= x <= from.1 <==> to.0 <= MapRange(x, from, to) <= to.1
  {
    MapRangeEndpoints(from, to);
    MapRangeMonotonic(from.0, x, from, to);
    MapRangeMonotonic(x, from.1, from, to);
  }
}
