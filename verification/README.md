# Pong game logic in Dafny

A model of the game-state logic of a two-paddle ball game (`game.js`). The canvas
is `W` wide and `H` high, and the world holds three objects: two paddles and one ball.
- The left paddle follows the pointer.
- The right paddle is moved by a dead-zone AI.
- Each frame moves the ball, bounces it off the top and bottom walls, deflects it
  off the left paddle and then off the right paddle, puts it back in the centre
  when it leaves the field sideways, and finally runs the AI.

Modelling choices:
- Numbers are `real`. JavaScript doubles are modelled without rounding, NaN or infinities.
- The objects are immutable datatypes (`Entities`). Every handler is a pure
  function from a `World` to a `World`.
- `Math.random() > 0.5 ? 1 : -1` becomes a boolean coin. `true` stands for `+1`.
- `Math.sin`, `Math.cos` and `Math.PI/4` are the fields of a `Trig` record that
  the caller passes in. The model says nothing about their values, so the proofs
  cover only what holds for every trigonometry: the sign forcing of `dx` and which
  fields a deflection changes.
- The pointer's canvas-relative `y` is a parameter of `MouseMove`.

The right paddle's deflection is modelled as written. `dx` starts as
`-speed * cos(angle)` and is then made non-negative (game.js:122-123), so after a
right-paddle hit the ball keeps travelling towards the right wall. The left
deflection does the opposite. `BallPhysics.BouncesMirror` proves that the two
deflections differ only in the sign of `dx`. The model keeps this behaviour
rather than correcting it.

Modules:
- `Entities` (entities.dfy): the data model, the game invariant `Inv`, and
  `SameShape`, the fields no operation changes.
- `Geometry` (collision.dfy): `collision`.
- `Paddles` (paddles.dfy): the pointer handler, the AI, and the clamp they share.
- `BallPhysics` (ball.dfy): moving, wall bounce, deflections and `resetBall`.
- `Simulation` (simulation.dfy): `update`.
- `Game` (game.dfy): the start-up objects, and any finite sequence of pointer
  moves and frames.

## Model

| member | source | states |
|---|---|---|
| Geometry.SeparatedMeansNoCollision | game.js:62-68 | a ball wholly left of, right of, above or below the paddle (edges touching included) does not collide |
| Geometry.CollisionIffSharedPoint | game.js:62-68 | for shapes of positive size, `collision` holds exactly when some point lies strictly inside both the paddle and the ball's square (both directions) |
| Geometry.CenteredBallCollides | game.js:62-68 | a ball centred on the paddle's centre collides with it |
| Paddles.KeepInBounds | game.js:57-58 | the clamp changes only `y`; when the paddle fits the canvas the result lies in `[0, H - height]`; a paddle already inside is left alone; a paddle taller than the canvas ends at `H - height` because the second test wins |
| Paddles.KeepInBoundsIsNearest | game.js:57-58 | when the paddle fits, the clamped `y` is the admissible position nearest to the requested one |
| Paddles.MouseMove | game.js:53-58 | only `leftPaddle.y` changes; it lies in `[0, H - height]` when the paddle fits; the paddle is centred on the pointer whenever that position is admissible; the invariant is kept |
| Paddles.Chase | game.js:81-86 | the AI moves up by exactly `speed` when the ball's centre is more than 10 above the paddle's centre and down by exactly `speed` when it is more than 10 below; the paddle does not move while the ball's centre is within 10 of the paddle's centre; a step is never longer than `speed`; with a non-negative speed the paddle never steps away from the ball's side; any movement means the ball's centre is outside the dead zone |
| Paddles.MoveRightPaddle | game.js:80-90 | only `rightPaddle.y` changes, so the ball and the left paddle are untouched; the result lies in `[0, H - height]` when the paddle fits; an admissible chase target is taken exactly; a paddle in bounds whose centre is within 10 of the ball's centre leaves the world unchanged |
| Paddles.AiNeverMovesAway | game.js:80-90 | with `0 <= speed <= 20` and the paddle in bounds, an AI step never increases the distance between the paddle's centre and the ball's centre |
| BallPhysics.WallBounce | game.js:99-101 | only `dy` changes and its magnitude is kept; a ball touching the top or bottom wall gets `dy` negated; any other ball is unchanged; for a moving ball, `dy` changes exactly when the wall is touched |
| BallPhysics.LeftBounce | game.js:104-113 | position, size and speed are kept; `dx = -abs(speed * cos(angle))`, hence `dx <= 0`, and `dy = speed * sin(angle)`, where the angle comes from the ball's centre relative to the paddle's |
| BallPhysics.RightBounce | game.js:116-124 | position, size and speed are kept; `dx = abs(speed * cos(angle))`, hence `dx >= 0`, and `dy = speed * sin(angle)` |
| BallPhysics.BouncesMirror | game.js:104-124 | the right deflection equals the left one with `dx` negated: the right paddle sends the ball rightwards |
| BallPhysics.SecondBounceOverrides | game.js:104-124 | a right deflection after a left one gives the same ball as the right deflection alone |
| BallPhysics.CentredHitsGoStraight | game.js:107-123 | a centred hit (angle 0, `sin 0 = 0`, `cos 0 = 1`) leaves at `dx = -speed` off the left paddle and `dx = +speed` off the right one, with `dy = 0` |
| BallPhysics.ResetBall | game.js:72-77 | the ball's centre is the canvas centre, so `x = W/2 - size/2` and `y = H/2 - size/2`; `dx` and `dy` are `+speed` or `-speed`, as the coins choose; size and speed are kept |
| BallPhysics.ResetForgetsMotion | game.js:72-77 | a reset's result does not depend on the ball's former position or velocity |
| BallPhysics.ResetDirectionsDistinct | game.js:75-76 | for a moving ball, different coin flips give different reset balls, so each of the four diagonal directions comes from exactly one pair of flips |
| Simulation.Update | game.js:93-132 | the left paddle is untouched; it changes no paddle's `x`, `width`, `height` or `speed` and no ball `size` or `speed`; both paddles stay inside the canvas (the invariant is kept) |
| Simulation.UpdateRunsAiLast | game.js:126-131 | the AI runs last: the frame's right paddle is the clamped chase step towards the ball the frame returns, so after a reset the AI reacts to the re-centred ball |
| Simulation.UpdateBallPosition | game.js:94-129 | when the moved ball is out of bounds sideways, the frame ends with exactly the reset ball; otherwise the ball ends displaced by exactly `(dx, dy)` |
| Simulation.UpdateWallReflection | game.js:94-101 | without paddle contact or reset, `dx` is unchanged, `dy` keeps its magnitude, and `dy` is negated exactly when the moved ball touches the top or bottom wall |
| Simulation.UpdateLeftHit | game.js:103-113 | a left-paddle hit without a right-paddle hit or reset ends with `dx <= 0` and the deflected velocity |
| Simulation.UpdateRightHit | game.js:115-124 | a right-paddle hit without reset ends with `dx >= 0`, and with the same ball as if the left paddle had not been hit: the right check runs second and wins |
| Game.Initial | game.js:5-15 | at start-up both paddles are 12 by 100, vertically centred and one margin from their sides, the left one with speed 0 and the right one with speed 5; the ball is 12 wide with speed 5; the invariant holds when `H >= 100`; the ball is in exactly the state a reset with the same coins produces |
| Game.Step | game.js:51-59 | one host callback, either a pointer move (the mousemove handler) or one frame's `update` (game.js:93-132), keeps the invariant and changes no paddle's `x`, `width`, `height` or `speed` and no ball `size` or `speed` |
| Game.Run | game.js:51-132 | any finite sequence of pointer moves (the mousemove handler, game.js:51-59) and frames (`update`, game.js:93-132) keeps the invariant and changes no paddle's `x`, `width`, `height` or `speed` and no ball `size` or `speed` |
| Game.PaddlesAlwaysInBounds | game.js:6-7 | starting from the start-up objects on a canvas at least one paddle tall, both paddles stay inside the canvas after any events |

## Left out

- Drawing (`drawRect`, `drawCircle`, `drawNet`, `draw`, game.js:17-48) and canvas setup (game.js:1-2): rendering side effects with no game state.
- DOM plumbing (`addEventListener`, `getBoundingClientRect`, game.js:51-53): `MouseMove` takes the pointer's canvas-relative `y` as a parameter.
- The `requestAnimationFrame` loop (game.js:134-141): host scheduling that never ends. `Game.Run` covers every finite interleaving of pointer moves and frames instead.
- `Math.random` (game.js:13-14, 75-76): replaced by boolean coins.
- The values of `Math.sin`, `Math.cos` and `Math.PI` (game.js:107-111, 118-122): floating-point trigonometry, left uninterpreted.
- Floating point: no rounding, NaN, infinities or signed zero.
- BallPhysics.LeftBounce: requires a non-zero paddle height, because the deflection divides by half that height and JavaScript's resulting Infinity or NaN has no counterpart among reals. The same precondition is on `BallPhysics.RightBounce`, `BallPhysics.CollidePoint` and `BallPhysics.Angle`, and, as `PaddlesHaveHeight` on both paddles, on `Simulation.AfterPaddles`, `Simulation.Update`, `Game.Step` and `Game.Run`. Every call site in the game meets it, because the paddles are always 100 high.
- Paddles.AiNeverMovesAway: holds only for AI speeds up to twice the dead zone. A faster paddle can overshoot the ball. The game's AI speed is 5.
