/** Axis-aligned bounding boxes and the overlap test the game applies to every
    player/obstacle and player/power-up pair. Coordinates are canvas pixels,
    with y growing downwards. */
module Geometry {

  /** A rectangle given by its top-left corner and its size. */
  datatype Box = Box(x: real, y: real, width: real, height: real)

  /** Both sides strictly positive: every box the game builds is of this kind. */
  predicate Positive(b: Box) {
    b.width > 0.0 && b.height > 0.0
  }

  /** The point (px, py) lies strictly inside b. */
  predicate Inside(b: Box, px: real, py: real) {
    b.x < px < b.x + b.width && b.y < py < b.y + b.height
  }

  function Max(a: real, b: real): real { if a < b then b else a }
  function Min(a: real, b: real): real { if a < b then a else b }

  /** The centre of the overlap of two boxes, axis by axis. */
  function MidX(a: Box, b: Box): real { (Max(a.x, b.x) + Min(a.x + a.width, b.x + b.width)) / 2.0 }
  function MidY(a: Box, b: Box): real { (Max(a.y, b.y) + Min(a.y + a.height, b.y + b.height)) / 2.0 }

  /** checkCollision: strict overlap on both axes. Any point inside both
      boxes makes it hold; for boxes of positive size, when it holds the
      centre of the overlap is such a point. */
  predicate Collides(a: Box, b: Box)
    ensures forall px: real, py: real :: Inside(a, px, py) && Inside(b, px, py) ==> Collides(a, b)
    ensures Collides(a, b) && Positive(a) && Positive(b) ==>
      Inside(a, MidX(a, b), MidY(a, b)) && Inside(b, MidX(a, b), MidY(a, b))
  {
    && a.x < b.x + b.width
    && a.x + a.width > b.x
    && a.y < b.y + b.height
    && a.y + a.height > b.y
  }

  /** The test does not depend on the order of its arguments. */
  lemma CollidesSymmetric(a: Box, b: Box)
    ensures Collides(a, b) <==> Collides(b, a)
  {
  }

  /** Strict inequalities: boxes that only share an edge do not collide. */
  lemma EdgeContactIsNoCollision(a: Box, b: Box)
    requires a.x + a.width == b.x || b.x + b.width == a.x || a.y + a.height == b.y || b.y + b.height == a.y
    ensures !Collides(a, b)
  {
  }

  /** For boxes of positive size the test means exactly: some point lies
      strictly inside both of them. */
  lemma CollidesIffCommonInteriorPoint(a: Box, b: Box)
    requires Positive(a) && Positive(b)
    ensures Collides(a, b) <==> exists px: real, py: real :: Inside(a, px, py) && Inside(b, px, py)
  {
    if Collides(a, b) {
      assert Inside(a, MidX(a, b), MidY(a, b)) && Inside(b, MidX(a, b), MidY(a, b));
    }
  }
}
