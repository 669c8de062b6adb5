/** Axis-aligned rectangles as libGDX's Rectangle holds them: lower-left corner and size. */
module Geometry {

  datatype Rect = Rect(x: real, y: real, width: real, height: real)

  /** Rectangle.overlaps: both axes overlap as open intervals, so touching edges do not overlap. */
  predicate Overlaps(a: Rect, b: Rect)
  {
    a.x < b.x + b.width && a.x + a.width > b.x && a.y < b.y + b.height && a.y + a.height > b.y
  }

  /** Math.max on floats (NaN aside). */
  function Max(a: real, b: real): (r: real)
    ensures r >= a && r >= b
    ensures r == a || r == b
  {
    if a >= b then a else b
  }

  /** MathUtils.clamp: below the range gives lo, above it gives hi. */
  function Clamp(v: real, lo: real, hi: real): (r: real)
    ensures lo <= hi ==> lo <= r <= hi
    ensures lo <= v <= hi ==> r == v
    ensures v < lo ==> r == lo
    ensures lo <= v && hi < v ==> r == hi
  {
    if v < lo then lo else if v > hi then hi else v
  }
}
