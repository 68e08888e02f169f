/** Axis-aligned rectangles as the three canvas games use them: (x, y) is the
    top-left corner, y grows downwards, and two rectangles collide when they
    overlap with positive area (every comparison is strict, so touching edges
    do not collide). Coordinates are exact rationals. */
module Geometry {

  datatype Box = Box(x: real, y: real, width: real, height: real)

  /** The overlap test written out at every collision site of the games. */
  predicate Overlaps(a: Box, b: Box)
  {
    a.x < b.x + b.width && a.x + a.width > b.x &&
    a.y < b.y + b.height && a.y + a.height > b.y
  }

  /** The test does not depend on which rectangle is written first, so the
      sites that write `player` first and those that write the other object
      first test the same thing. */
  lemma OverlapsSymmetric(a: Box, b: Box)
    ensures Overlaps(a, b) <==> Overlaps(b, a)
  {
  }

  /** Rectangles that only touch along an edge do not collide. */
  lemma TouchingDoesNotOverlap(a: Box, b: Box)
    requires b.x == a.x + a.width || b.y == a.y + a.height
    ensures !Overlaps(a, b)
  {
  }

  function Max(a: real, b: real): real { if a < b then b else a }
  function Min(a: real, b: real): real { if a < b then a else b }

  /** `Math.max(lo, Math.min(hi, v))`, the touch clamp of every game. */
  function Clamp(v: real, lo: real, hi: real): (r: real)
    ensures lo <= r
    ensures lo <= hi ==> r <= hi
    ensures lo <= v <= hi ==> r == v
    ensures v < lo ==> r == lo
    ensures lo <= hi < v ==> r == hi
  {
    Max(lo, Min(hi, v))
  }
}
