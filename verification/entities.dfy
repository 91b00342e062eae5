/**
 The three game objects of the pong game and the canvas they live on.

 Coordinates are canvas pixels with the origin at the top-left corner and `y`
 growing downwards. JavaScript numbers are modelled as `real`: the model has no
 rounding, no NaN and no infinities.
 */
module Entities {

  /** The drawing surface; only its size matters to the game logic. */
  datatype Canvas = Canvas(width: real, height: real)

  /** A paddle: its top-left corner, its size and the distance it moves per AI step. */
  datatype Paddle = Paddle(x: real, y: real, width: real, height: real, speed: real)

  /** The ball: the top-left corner of its bounding square, the square's side,
      its nominal speed and its per-frame displacement `(dx, dy)`. */
  datatype Ball = Ball(x: real, y: real, size: real, speed: real, dx: real, dy: real)

  /** Everything the game keeps between frames. */
  datatype World = World(left: Paddle, right: Paddle, ball: Ball)

  /** The host's trigonometry, left uninterpreted: `sin` and `cos` of an angle in
      radians, and the host's value of pi/4. */
  datatype Trig = Trig(sin: real -> real, cos: real -> real, quarterPi: real)

  function Abs(x: real): real
  {
    if x < 0.0 then -x else x
  }

  /** The value `Math.random() > 0.5 ? 1 : -1` takes when the coin says `up`. */
  function Sign(up: bool): real
  {
    if up then 1.0 else -1.0
  }

  function BallCenterY(b: Ball): real
  {
    b.y + b.size / 2.0
  }

  function PaddleCenterY(p: Paddle): real
  {
    p.y + p.height / 2.0
  }

  /** The paddle lies vertically inside the canvas. */
  predicate InBounds(c: Canvas, p: Paddle)
  {
    0.0 <= p.y <= c.height - p.height
  }

  /** The deflection divides by half a paddle's height, so a frame needs both
      paddles to have a non-zero height. */
  predicate PaddlesHaveHeight(w: World)
  {
    w.left.height != 0.0 && w.right.height != 0.0
  }

  /** The game invariant: each paddle has a positive height that fits the canvas
      and lies inside the canvas. */
  predicate Inv(c: Canvas, w: World)
  {
    && 0.0 < w.left.height <= c.height && InBounds(c, w.left)
    && 0.0 < w.right.height <= c.height && InBounds(c, w.right)
  }

  /** The fields that no operation of the game ever changes: the paddles'
      `x`, `width`, `height` and `speed`, and the ball's `size` and `speed`. */
  predicate SameShape(w: World, w': World)
  {
    && w'.left.x == w.left.x && w'.left.width == w.left.width
    && w'.left.height == w.left.height && w'.left.speed == w.left.speed
    && w'.right.x == w.right.x && w'.right.width == w.right.width
    && w'.right.height == w.right.height && w'.right.speed == w.right.speed
    && w'.ball.size == w.ball.size && w'.ball.speed == w.ball.speed
  }
}
