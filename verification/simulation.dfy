/**
 One frame of the game: move the ball, bounce it off the top and bottom walls,
 deflect it off the left paddle and then the right paddle, reset it when it has
 left the field sideways, and finally let the AI move the right paddle.
 */
module Simulation {
  import opened Entities
  import opened Geometry
  import opened BallPhysics
  import opened Paddles

  /** The ball after the paddle checks of a frame, before the out-of-bounds test. */
  function AfterPaddles(t: Trig, w: World, b: Ball): Ball
    requires PaddlesHaveHeight(w)
  {
    var b1 := if Collision(w.left, b) then LeftBounce(t, w.left, b) else b;
    if Collision(w.right, b1) then RightBounce(t, w.right, b1) else b1
  }

  /** One call of the game's update, with the two coin flips a reset would use. */
  function Update(c: Canvas, t: Trig, w: World, dxUp: bool, dyUp: bool): (r: World)
    requires PaddlesHaveHeight(w)
    ensures r.left == w.left
    ensures SameShape(w, r)
    ensures Inv(c, w) ==> Inv(c, r)
  {
    var moved := Move(w.ball);
    var bounced := WallBounce(c, moved);
    var deflected := AfterPaddles(t, w, bounced);
    var settled := if OutOfBounds(c, deflected) then ResetBall(c, deflected, dxUp, dyUp) else deflected;
    MoveRightPaddle(c, w.(ball := settled))
  }

  /** The AI runs last: the frame's right paddle is the clamped chase step
      towards the ball the frame returns, whether or not that ball was reset. */
  lemma UpdateRunsAiLast(c: Canvas, t: Trig, w: World, dxUp: bool, dyUp: bool)
    requires PaddlesHaveHeight(w)
    ensures
      var r := Update(c, t, w, dxUp, dyUp);
      r.right == KeepInBounds(c, w.right.(y := Chase(w.right, r.ball)))
  {
  }

  /** Sideways exit is decided on the moved ball: bounces never change the position. */
  lemma UpdateBallPosition(c: Canvas, t: Trig, w: World, dxUp: bool, dyUp: bool)
    requires PaddlesHaveHeight(w)
    ensures
      var m := Move(w.ball);
      var r := Update(c, t, w, dxUp, dyUp).ball;
      && (OutOfBounds(c, m) ==> r == ResetBall(c, w.ball, dxUp, dyUp))
      && (!OutOfBounds(c, m) ==> r.x == w.ball.x + w.ball.dx && r.y == w.ball.y + w.ball.dy)
  {
  }

  /** A frame without paddle contact or reset only moves the ball and reflects it
      at the top and bottom walls. */
  lemma UpdateWallReflection(c: Canvas, t: Trig, w: World, dxUp: bool, dyUp: bool)
    requires PaddlesHaveHeight(w)
    requires
      var m := Move(w.ball);
      !Collision(w.left, m) && !Collision(w.right, m) && !OutOfBounds(c, m)
    ensures
      var m := Move(w.ball);
      var r := Update(c, t, w, dxUp, dyUp).ball;
      && r.x == w.ball.x + w.ball.dx && r.y == w.ball.y + w.ball.dy
      && r.dx == w.ball.dx
      && Abs(r.dy) == Abs(w.ball.dy)
      && (WallHit(c, m) ==> r.dy == -w.ball.dy)
      && (!WallHit(c, m) ==> r.dy == w.ball.dy)
  {
  }

  /** A frame that touches only the left paddle, without reset, leaves the ball
      heading left (or straight up or down) with the deflected velocity. */
  lemma UpdateLeftHit(c: Canvas, t: Trig, w: World, dxUp: bool, dyUp: bool)
    requires PaddlesHaveHeight(w)
    requires
      var m := Move(w.ball);
      Collision(w.left, m) && !Collision(w.right, m) && !OutOfBounds(c, m)
    ensures
      var m := Move(w.ball);
      var r := Update(c, t, w, dxUp, dyUp).ball;
      && r.dx <= 0.0
      && r.dx == -Abs(w.ball.speed * t.cos(Angle(t, w.left, BallCenterY(m))))
      && r.dy == w.ball.speed * t.sin(Angle(t, w.left, BallCenterY(m)))
  {
  }

  /** A frame that touches the right paddle, without reset, leaves the ball
      heading right (or straight up or down), whether or not the left paddle was
      touched too: the right deflection runs second and overwrites the left one. */
  lemma UpdateRightHit(c: Canvas, t: Trig, w: World, dxUp: bool, dyUp: bool)
    requires PaddlesHaveHeight(w)
    requires
      var m := Move(w.ball);
      Collision(w.right, m) && !OutOfBounds(c, m)
    ensures
      var m := Move(w.ball);
      var r := Update(c, t, w, dxUp, dyUp).ball;
      && r.dx >= 0.0
      && r == RightBounce(t, w.right, WallBounce(c, m))
  {
  }
}
