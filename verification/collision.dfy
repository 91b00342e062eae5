/**
 Ball-paddle collision: overlap of the paddle's rectangle with the ball's
 bounding square, with strict inequalities on both axes.
 */
module Geometry {
  import opened Entities

  /** The paddle and the ball's bounding square overlap on both axes. */
  predicate Collision(p: Paddle, b: Ball)
  {
    && b.x < p.x + p.width
    && b.x + b.size > p.x
    && b.y < p.y + p.height
    && b.y + b.size > p.y
  }

  /** The point `(px, py)` lies strictly inside the paddle. */
  predicate InsidePaddle(p: Paddle, px: real, py: real)
  {
    p.x < px < p.x + p.width && p.y < py < p.y + p.height
  }

  /** The point `(px, py)` lies strictly inside the ball's bounding square. */
  predicate InsideBall(b: Ball, px: real, py: real)
  {
    b.x < px < b.x + b.size && b.y < py < b.y + b.size
  }

  /** A ball lying wholly on one side of the paddle (touching edges included)
      does not collide with it. */
  lemma SeparatedMeansNoCollision(p: Paddle, b: Ball)
    requires
      || b.x + b.size <= p.x
      || b.x >= p.x + p.width
      || b.y + b.size <= p.y
      || b.y >= p.y + p.height
    ensures !Collision(p, b)
  {
  }

  /** For shapes of positive size, `Collision` holds exactly when some point lies
      inside both the paddle and the ball's square. */
  lemma CollisionIffSharedPoint(p: Paddle, b: Ball)
    requires p.width > 0.0 && p.height > 0.0 && b.size > 0.0
    ensures Collision(p, b) <==> exists px, py :: InsidePaddle(p, px, py) && InsideBall(b, px, py)
  {
    if Collision(p, b) {
      var loX := if b.x < p.x then p.x else b.x;
      var hiX := if b.x + b.size < p.x + p.width then b.x + b.size else p.x + p.width;
      var loY := if b.y < p.y then p.y else b.y;
      var hiY := if b.y + b.size < p.y + p.height then b.y + b.size else p.y + p.height;
      var px, py := (loX + hiX) / 2.0, (loY + hiY) / 2.0;
      assert InsidePaddle(p, px, py) && InsideBall(b, px, py);
    }
  }

  /** A ball whose centre is the paddle's centre collides with it. */
  lemma CenteredBallCollides(p: Paddle, b: Ball)
    requires p.width > 0.0 && p.height > 0.0 && b.size > 0.0
    requires b.x + b.size / 2.0 == p.x + p.width / 2.0
    requires BallCenterY(b) == PaddleCenterY(p)
    ensures Collision(p, b)
  {
  }
}
