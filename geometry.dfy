/** Axis-aligned boxes, the strict overlap test and the two-sided clamp used by the platformer. */
module Geometry {

  /** An axis-aligned box by its four edges; y grows downward, so `top <= bottom` for a real box. */
  datatype Box = Box(left: real, right: real, top: real, bottom: real)

  /** Interiors intersect: touching edges do not count. */
  predicate Overlaps(a: Box, b: Box)
  {
    a.right > b.left && a.left < b.right && a.bottom > b.top && a.top < b.bottom
  }

  /** The clamp as the game writes it: first raise to `lo`, then lower to `hi`. */
  function ClampTo(v: real, lo: real, hi: real): (r: real)
    ensures lo <= hi ==> lo <= r <= hi
    ensures lo <= v <= hi ==> r == v
    ensures v < lo && lo <= hi ==> r == lo
    ensures hi < v && lo <= hi ==> r == hi
  {
    var raised := if v < lo then lo else v;
    if raised > hi then hi else raised
  }
}
