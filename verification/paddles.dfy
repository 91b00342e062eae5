/**
 The two paddle controllers: the pointer handler that places the left paddle
 under the pointer, and the AI that moves the right paddle towards the ball.
 Both finish with the same two-step clamp into the canvas.
 */
module Paddles {
  import opened Entities

  /** Half-width of the AI's dead zone around the paddle's centre. */
  const DeadZone: real := 10.0

  /** The clamp both controllers apply: first raise a paddle above the top edge
      to `y = 0`, then pull a paddle reaching below the bottom edge up to
      `y = height(canvas) - height(paddle)`. */
  function KeepInBounds(c: Canvas, p: Paddle): (r: Paddle)
    ensures r == p.(y := r.y)
    ensures p.height <= c.height ==> InBounds(c, r)
    ensures InBounds(c, p) ==> r == p
    // the second test wins when the paddle is taller than the canvas
    ensures p.height > c.height ==> r.y == c.height - p.height
  {
    var y1 := if p.y < 0.0 then 0.0 else p.y;
    var y2 := if y1 + p.height > c.height then c.height - p.height else y1;
    p.(y := y2)
  }

  /** When the paddle fits, the clamp moves `y` to the nearest admissible position. */
  lemma KeepInBoundsIsNearest(c: Canvas, p: Paddle, z: real)
    requires p.height <= c.height
    requires 0.0 <= z <= c.height - p.height
    ensures Abs(KeepInBounds(c, p).y - p.y) <= Abs(z - p.y)
  {
  }

  /** The pointer handler: centre the left paddle on the pointer's `y`, then clamp. */
  function MouseMove(c: Canvas, w: World, mouseY: real): (r: World)
    ensures r == w.(left := w.left.(y := r.left.y))
    ensures SameShape(w, r)
    ensures w.left.height <= c.height ==> InBounds(c, r.left)
    ensures Inv(c, w) ==> Inv(c, r)
    ensures InBounds(c, w.left.(y := mouseY - w.left.height / 2.0)) ==> PaddleCenterY(r.left) == mouseY
  {
    w.(left := KeepInBounds(c, w.left.(y := mouseY - w.left.height / 2.0)))
  }

  /** The AI's move before clamping: up by `speed` when the ball's centre is more
      than `DeadZone` above the paddle's centre, down by `speed` when it is more
      than `DeadZone` below, otherwise stay. */
  function Chase(p: Paddle, b: Ball): (y: real)
    ensures BallCenterY(b) < PaddleCenterY(p) - DeadZone ==> y == p.y - p.speed
    ensures BallCenterY(b) > PaddleCenterY(p) + DeadZone ==> y == p.y + p.speed
    ensures Abs(BallCenterY(b) - PaddleCenterY(p)) <= DeadZone ==> y == p.y
    // a step is never longer than the paddle's speed
    ensures Abs(y - p.y) <= Abs(p.speed)
    // with a non-negative speed the paddle never steps away from the ball's side
    ensures p.speed >= 0.0 ==> (y - p.y) * (BallCenterY(b) - PaddleCenterY(p)) >= 0.0
    // the paddle moves only when the ball's centre is outside the dead zone
    ensures y != p.y ==> Abs(BallCenterY(b) - PaddleCenterY(p)) > DeadZone
  {
    var paddleCenter := p.y + p.height / 2.0;
    if b.y + b.size / 2.0 < paddleCenter - DeadZone then p.y - p.speed
    else if b.y + b.size / 2.0 > paddleCenter + DeadZone then p.y + p.speed
    else p.y
  }

  /** The AI step for the right paddle. */
  function MoveRightPaddle(c: Canvas, w: World): (r: World)
    ensures r == w.(right := w.right.(y := r.right.y))
    ensures SameShape(w, r)
    ensures w.right.height <= c.height ==> InBounds(c, r.right)
    ensures Inv(c, w) ==> Inv(c, r)
    ensures InBounds(c, w.right.(y := Chase(w.right, w.ball))) ==> r.right.y == Chase(w.right, w.ball)
    ensures InBounds(c, w.right) && Abs(BallCenterY(w.ball) - PaddleCenterY(w.right)) <= DeadZone ==> r == w
  {
    w.(right := KeepInBounds(c, w.right.(y := Chase(w.right, w.ball))))
  }

  /** With a speed of at most twice the dead zone, an AI step never takes the
      right paddle's centre farther from the ball's centre. */
  lemma AiNeverMovesAway(c: Canvas, w: World)
    requires w.right.height <= c.height && InBounds(c, w.right)
    requires 0.0 <= w.right.speed <= 2.0 * DeadZone
    ensures
      Abs(PaddleCenterY(MoveRightPaddle(c, w).right) - BallCenterY(w.ball))
      <= Abs(PaddleCenterY(w.right) - BallCenterY(w.ball))
  {
  }
}
