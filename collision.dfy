/** The ball/paddle overlap test.  The source writes the bounding-box edges
    onto both objects before comparing them; here the boxes are values. */
module Collision {
  import opened Entities

  /** An axis-aligned box by its four edges (y grows downwards). */
  datatype Box = Box(left: real, right: real, top: real, bottom: real)

  /** The bounding box of the ball. */
  function BallBox(b: Ball): Box
  {
    Box(b.x - b.radius, b.x + b.radius, b.y - b.radius, b.y + b.radius)
  }

  /** The rectangle of a paddle. */
  function PaddleBox(p: Paddle): Box
  {
    Box(p.x, p.x + p.width, p.y, p.y + p.height)
  }

  /** The point (px, py) lies strictly inside the box. */
  predicate Inside(bx: Box, px: real, py: real)
  {
    bx.left < px < bx.right && bx.top < py < bx.bottom
  }

  /** The collision test: the two boxes overlap on both axes, with strict
      comparisons, so boxes that only touch do not collide. */
  predicate Collides(b: Ball, p: Paddle)
  {
    var bb, pb := BallBox(b), PaddleBox(p);
    bb.right > pb.left && bb.bottom > pb.top && bb.left < pb.right && bb.top < pb.bottom
  }

  /** The midpoint of the two open intervals' common part. */
  function CommonMid(lo1: real, hi1: real, lo2: real, hi2: real): real
  {
    ((if lo1 < lo2 then lo2 else lo1) + (if hi1 < hi2 then hi1 else hi2)) / 2.0
  }

  /** For a ball and a paddle of positive size, the test succeeds exactly
      when some point lies strictly inside both boxes: the boundaries are open. */
  lemma CollidesIffCommonInterior(b: Ball, p: Paddle)
    requires b.radius > 0.0 && p.width > 0.0 && p.height > 0.0
    ensures Collides(b, p) <==>
            exists px: real, py: real :: Inside(BallBox(b), px, py) && Inside(PaddleBox(p), px, py)
  {
    var bb, pb := BallBox(b), PaddleBox(p);
    if Collides(b, p) {
      var px := CommonMid(bb.left, bb.right, pb.left, pb.right);
      var py := CommonMid(bb.top, bb.bottom, pb.top, pb.bottom);
      assert Inside(bb, px, py) && Inside(pb, px, py);
    }
  }

  /** A ball whose box ends exactly where the paddle begins, on any side, does
      not collide with it. */
  lemma TouchingDoesNotCollide(b: Ball, p: Paddle)
    requires b.x + b.radius == p.x || b.y + b.radius == p.y ||
             b.x - b.radius == p.x + p.width || b.y - b.radius == p.y + p.height
    ensures !Collides(b, p)
  {
  }

  /** A ball centred at (5, 50) with radius 10 hits the paddle at (0, 40) of
      size 10 x 100, and misses it once the paddle is moved to (0, -200). */
  lemma CollisionExamples()
    ensures Collides(Ball(5.0, 50.0, 10.0, 7.0, 0.0, 0.0), Paddle(0.0, 40.0, 10.0, 100.0, 0))
    ensures !Collides(Ball(5.0, 50.0, 10.0, 7.0, 0.0, 0.0), Paddle(0.0, -200.0, 10.0, 100.0, 0))
  {
  }
}
