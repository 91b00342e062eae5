/**
 The ball's motion: one frame's displacement, the top/bottom wall bounce, the
 two paddle deflections and the reset to the centre of the canvas.
 */
module BallPhysics {
  import opened Entities

  /** Advance the ball by its per-frame displacement. */
  function Move(b: Ball): Ball
  {
    b.(x := b.x + b.dx, y := b.y + b.dy)
  }

  /** The ball's square touches or crosses the top or the bottom edge. */
  predicate WallHit(c: Canvas, b: Ball)
  {
    b.y <= 0.0 || b.y + b.size >= c.height
  }

  /** The ball's square touches or crosses the left or the right edge. */
  predicate OutOfBounds(c: Canvas, b: Ball)
  {
    b.x <= 0.0 || b.x + b.size >= c.width
  }

  /** Reverse the vertical direction at the top and bottom walls; the position
      is not corrected. */
  function WallBounce(c: Canvas, b: Ball): (r: Ball)
    ensures r == b.(dy := r.dy)
    ensures Abs(r.dy) == Abs(b.dy)
    ensures WallHit(c, b) ==> r.dy == -b.dy
    ensures !WallHit(c, b) ==> r == b
    ensures b.dy != 0.0 ==> (WallHit(c, b) <==> r.dy != b.dy)
  {
    if WallHit(c, b) then b.(dy := -b.dy) else b
  }

  /** Where a ball centred at height `centerY` meets the paddle, relative to the
      paddle's centre and in units of half the paddle's height (not clamped to
      [-1, 1]). */
  function CollidePoint(p: Paddle, centerY: real): real
    requires p.height != 0.0
  {
    (centerY - PaddleCenterY(p)) / (p.height / 2.0)
  }

  /** The deflection angle for a ball centred at height `centerY`: the collide
      point scaled by pi/4. */
  function Angle(t: Trig, p: Paddle, centerY: real): real
    requires p.height != 0.0
  {
    CollidePoint(p, centerY) * t.quarterPi
  }

  /** Deflection off the left paddle: the new velocity is `speed` turned by the
      deflection angle, with `dx` then forced to be non-positive. */
  function LeftBounce(t: Trig, p: Paddle, b: Ball): (r: Ball)
    requires p.height != 0.0
    ensures r == b.(dx := r.dx, dy := r.dy)
    ensures r.dx <= 0.0
    ensures r.dx == -Abs(b.speed * t.cos(Angle(t, p, BallCenterY(b))))
    ensures r.dy == b.speed * t.sin(Angle(t, p, BallCenterY(b)))
  {
    // the reversal of `dx` is overwritten by the deflection right after
    var reversed := b.(dx := -b.dx);
    var angle := Angle(t, p, BallCenterY(reversed));
    var dx := reversed.speed * t.cos(angle);
    reversed.(dy := reversed.speed * t.sin(angle), dx := if dx > 0.0 then -dx else dx)
  }

  /** Deflection off the right paddle: `dx` starts as `-speed * cos(angle)` and is
      then forced to be NON-NEGATIVE, so the ball keeps heading right. */
  function RightBounce(t: Trig, p: Paddle, b: Ball): (r: Ball)
    requires p.height != 0.0
    ensures r == b.(dx := r.dx, dy := r.dy)
    ensures r.dx >= 0.0
    ensures r.dx == Abs(b.speed * t.cos(Angle(t, p, BallCenterY(b))))
    ensures r.dy == b.speed * t.sin(Angle(t, p, BallCenterY(b)))
  {
    var reversed := b.(dx := -b.dx);
    var angle := Angle(t, p, BallCenterY(reversed));
    var dx := -reversed.speed * t.cos(angle);
    reversed.(dy := reversed.speed * t.sin(angle), dx := if dx < 0.0 then -dx else dx)
  }

  /** The two deflections agree on everything but the sign of `dx`: the right
      paddle sends the ball off in the mirror image of the left paddle's
      direction, that is, towards the right wall. */
  lemma BouncesMirror(t: Trig, p: Paddle, b: Ball)
    requires p.height != 0.0
    ensures RightBounce(t, p, b) == LeftBounce(t, p, b).(dx := -LeftBounce(t, p, b).dx)
  {
  }

  /** A deflection reads only the ball's position, size and speed, so a second
      deflection erases every trace of a first one. */
  lemma SecondBounceOverrides(t: Trig, p: Paddle, q: Paddle, b: Ball)
    requires p.height != 0.0 && q.height != 0.0
    ensures RightBounce(t, q, LeftBounce(t, p, b)) == RightBounce(t, q, b)
  {
  }

  /** A ball whose centre meets the paddle's centre is deflected at angle zero:
      with `sin 0 = 0` and `cos 0 = 1` it leaves horizontally at full speed,
      leftwards off the left paddle and rightwards off the right one. */
  lemma CentredHitsGoStraight(t: Trig, p: Paddle, b: Ball)
    requires p.height != 0.0 && b.speed >= 0.0
    requires t.sin(0.0) == 0.0 && t.cos(0.0) == 1.0
    requires BallCenterY(b) == PaddleCenterY(p)
    ensures LeftBounce(t, p, b).dx == -b.speed && LeftBounce(t, p, b).dy == 0.0
    ensures RightBounce(t, p, b).dx == b.speed && RightBounce(t, p, b).dy == 0.0
  {
    assert Angle(t, p, BallCenterY(b)) == 0.0;
  }

  /** Put the ball back in the centre of the canvas, heading diagonally at
      `speed` on each axis in the directions the two coin flips choose. */
  function ResetBall(c: Canvas, b: Ball, dxUp: bool, dyUp: bool): (r: Ball)
    ensures r.size == b.size && r.speed == b.speed
    ensures r.x + r.size / 2.0 == c.width / 2.0
    ensures BallCenterY(r) == c.height / 2.0
    ensures Abs(r.dx) == Abs(b.speed) && Abs(r.dy) == Abs(b.speed)
    ensures r.dx == (if dxUp then b.speed else -b.speed)
    ensures r.dy == (if dyUp then b.speed else -b.speed)
  {
    b.(x := c.width / 2.0 - b.size / 2.0,
       y := c.height / 2.0 - b.size / 2.0,
       dx := b.speed * Sign(dxUp),
       dy := b.speed * Sign(dyUp))
  }

  /** A reset forgets the ball's former position and velocity. */
  lemma ResetForgetsMotion(c: Canvas, b: Ball, b': Ball, dxUp: bool, dyUp: bool)
    requires b'.size == b.size && b'.speed == b.speed
    ensures ResetBall(c, b, dxUp, dyUp) == ResetBall(c, b', dxUp, dyUp)
  {
  }

  /** For a ball that moves at all, each of the four diagonal directions is the
      outcome of exactly one pair of coin flips. */
  lemma ResetDirectionsDistinct(c: Canvas, b: Ball, dxUp: bool, dyUp: bool, dxUp': bool, dyUp': bool)
    requires b.speed != 0.0
    requires ResetBall(c, b, dxUp, dyUp) == ResetBall(c, b, dxUp', dyUp')
    ensures dxUp == dxUp' && dyUp == dyUp'
  {
  }
}
