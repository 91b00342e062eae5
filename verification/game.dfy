/**
 The game as a whole: the objects created at start-up and the effect of any
 finite sequence of pointer moves and frames on them.
 */
module Game {
  import opened Entities
  import opened BallPhysics
  import opened Paddles
  import opened Simulation

  const PaddleWidth: real := 12.0
  const PaddleHeight: real := 100.0
  const BallSize: real := 12.0
  /** Gap between each paddle and its side of the canvas. */
  const PaddleMargin: real := 20.0
  const BallSpeed: real := 5.0
  const AiSpeed: real := 5.0

  /** The objects created at start-up: both paddles vertically centred, the ball
      in the middle heading diagonally in the directions the coins choose. */
  function Initial(c: Canvas, dxUp: bool, dyUp: bool): (w: World)
    ensures c.height >= PaddleHeight ==> Inv(c, w)
    ensures w.ball == ResetBall(c, w.ball, dxUp, dyUp)
    // the paddles sit symmetrically, each one margin away from its side of the canvas
    ensures w.left.x == c.width - (w.right.x + w.right.width) == PaddleMargin
    ensures PaddleCenterY(w.left) == c.height / 2.0 && PaddleCenterY(w.right) == c.height / 2.0
    // both paddles are 12 by 100; only the right one moves on its own, 5 per frame
    ensures w.left.width == w.right.width == PaddleWidth
    ensures w.left.height == w.right.height == PaddleHeight
    ensures w.left.speed == 0.0 && w.right.speed == AiSpeed
    // the ball is 12 wide and moves 5 per frame on each axis
    ensures w.ball.size == BallSize && w.ball.speed == BallSpeed
  {
    World(
      Paddle(PaddleMargin, c.height / 2.0 - PaddleHeight / 2.0, PaddleWidth, PaddleHeight, 0.0),
      Paddle(c.width - PaddleMargin - PaddleWidth, c.height / 2.0 - PaddleHeight / 2.0, PaddleWidth, PaddleHeight, AiSpeed),
      Ball(c.width / 2.0 - BallSize / 2.0, c.height / 2.0 - BallSize / 2.0, BallSize, BallSpeed,
           BallSpeed * Sign(dxUp), BallSpeed * Sign(dyUp)))
  }

  /** What the host delivers: a pointer move at a canvas-relative `y`, or an
      animation frame together with the coin flips a reset in it would use. */
  datatype Event = PointerMoved(mouseY: real) | Frame(dxUp: bool, dyUp: bool)

  function Step(c: Canvas, t: Trig, w: World, e: Event): (r: World)
    requires PaddlesHaveHeight(w)
    ensures SameShape(w, r)
    ensures Inv(c, w) ==> Inv(c, r)
  {
    match e
    case PointerMoved(mouseY) => MouseMove(c, w, mouseY)
    case Frame(dxUp, dyUp) => Update(c, t, w, dxUp, dyUp)
  }

  /** The world after handling the events in order. */
  function Run(c: Canvas, t: Trig, w: World, es: seq<Event>): (r: World)
    requires PaddlesHaveHeight(w)
    ensures SameShape(w, r)
    ensures Inv(c, w) ==> Inv(c, r)
    decreases |es|
  {
    if es == [] then w else Run(c, t, Step(c, t, w, es[0]), es[1..])
  }

  /** From start-up on a canvas at least one paddle tall, both paddles stay
      inside the canvas whatever the pointer and the coins do. */
  lemma PaddlesAlwaysInBounds(c: Canvas, t: Trig, dxUp: bool, dyUp: bool, es: seq<Event>)
    requires c.height >= PaddleHeight
    ensures
      var w := Run(c, t, Initial(c, dxUp, dyUp), es);
      InBounds(c, w.left) && InBounds(c, w.right)
  {
  }
}
