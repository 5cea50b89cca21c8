/** The rules of the two-player Pong game as pure functions on a value of the
    game state. Each state-changing method of the game object (module Pong)
    is proved to produce exactly the state its function here gives; the
    properties of the game are stated as the contracts of these functions. */
module PongRules {

  // Field and object sizes and speeds, in canvas units per tick.
  const WIDTH := 800
  const HEIGHT := 600
  const BALL_RADIUS := 10
  const PADDLE_WIDTH := 10
  const PADDLE_HEIGHT := 100
  const SPEED := 2
  const BALL_SPEED_X := 4
  const BALL_SPEED_Y := 4

  // Left edges of the two paddles, 20 units in from their side walls.
  const LEFT_PADDLE_X := 20
  const RIGHT_PADDLE_X := WIDTH - 20 - PADDLE_WIDTH

  /** The bounding box (x0, y0)-(x1, y1) of a canvas item, as the canvas
      reports it. The ball is the oval inscribed in its box. */
  datatype Box = Box(x0: int, y0: int, x1: int, y1: int)
  {
    /** The box shifted by (dx, dy), as the canvas moves an item. */
    function Moved(dx: int, dy: int): (r: Box)
      ensures r.x1 - r.x0 == x1 - x0 && r.y1 - r.y0 == y1 - y0
      ensures r.x0 - x0 == dx && r.y0 - y0 == dy
    {
      Box(x0 + dx, y0 + dy, x1 + dx, y1 + dy)
    }
  }

  /** The ball's box when the ball sits in the middle of the field. */
  function CentredBall(): (b: Box)
    ensures b.x0 + b.x1 == WIDTH && b.y0 + b.y1 == HEIGHT
    ensures b.x1 - b.x0 == 2 * BALL_RADIUS && b.y1 - b.y0 == 2 * BALL_RADIUS
  {
    Box(WIDTH / 2 - BALL_RADIUS, HEIGHT / 2 - BALL_RADIUS,
        WIDTH / 2 + BALL_RADIUS, HEIGHT / 2 + BALL_RADIUS)
  }

  /** Everything the game reads and writes: the three boxes held by the
      canvas, the velocities, the score and the pause flag. */
  datatype GameState = GameState(
    ball: Box, left: Box, right: Box,
    ballDx: int, ballDy: int,
    leftDy: int, rightDy: int,
    scoreLeft: int, scoreRight: int,
    paused: bool)

  // ---------------------------------------------------------------------
  // The invariant every reachable state keeps

  /** A paddle of the configured size whose left edge is at x and which lies
      within the field's height. */
  predicate PaddleAt(p: Box, x: int)
  {
    p.x0 == x && p.x1 == x + PADDLE_WIDTH &&
    p.y1 - p.y0 == PADDLE_HEIGHT && 0 <= p.y0 && p.y1 <= HEIGHT
  }

  /** The ball keeps its size, lies strictly between the two goal lines and
      overlaps the top or the bottom wall by less than one step, and only
      while it is moving away from that wall. */
  predicate BallInField(b: Box, dy: int)
  {
    b.x1 - b.x0 == 2 * BALL_RADIUS && b.y1 - b.y0 == 2 * BALL_RADIUS &&
    0 < b.x0 && b.x1 < WIDTH &&
    -BALL_SPEED_Y < b.y0 && b.y1 < HEIGHT + BALL_SPEED_Y &&
    (b.y0 <= 0 ==> dy > 0) && (b.y1 >= HEIGHT ==> dy < 0)
  }

  predicate IsPaddleSpeed(v: int)
  {
    v == -SPEED || v == 0 || v == SPEED
  }

  predicate Inv(s: GameState)
  {
    BallInField(s.ball, s.ballDy) &&
    PaddleAt(s.left, LEFT_PADDLE_X) && PaddleAt(s.right, RIGHT_PADDLE_X) &&
    (s.ballDx == BALL_SPEED_X || s.ballDx == -BALL_SPEED_X) &&
    (s.ballDy == BALL_SPEED_Y || s.ballDy == -BALL_SPEED_Y) &&
    IsPaddleSpeed(s.leftDy) && IsPaddleSpeed(s.rightDy) &&
    0 <= s.scoreLeft && 0 <= s.scoreRight
  }

  // ---------------------------------------------------------------------
  // Start of a session

  /** The state the game object is built with, before its first tick. Both
      paddles start with a downward velocity of 2. */
  function Initial(): (s: GameState)
    ensures Inv(s)
    ensures !s.paused && s.scoreLeft == 0 && s.scoreRight == 0
    ensures s.ball == CentredBall() && s.ballDx == BALL_SPEED_X && s.ballDy == BALL_SPEED_Y
    ensures s.left.y0 + s.left.y1 == HEIGHT && s.right.y0 + s.right.y1 == HEIGHT
    ensures s.leftDy == 2 && s.rightDy == 2
  {
    GameState(
      CentredBall(),
      Box(LEFT_PADDLE_X, HEIGHT / 2 - PADDLE_HEIGHT / 2,
          LEFT_PADDLE_X + PADDLE_WIDTH, HEIGHT / 2 + PADDLE_HEIGHT / 2),
      Box(RIGHT_PADDLE_X, HEIGHT / 2 - PADDLE_HEIGHT / 2,
          RIGHT_PADDLE_X + PADDLE_WIDTH, HEIGHT / 2 + PADDLE_HEIGHT / 2),
      BALL_SPEED_X, BALL_SPEED_Y, 2, 2, 0, 0, false)
  }

  // ---------------------------------------------------------------------
  // Keyboard and pause menu

  function PauseToggled(s: GameState): (r: GameState)
    ensures r.paused == !s.paused
    ensures r.(paused := s.paused) == s
  {
    s.(paused := !s.paused)
  }

  /** A key going down: w and s steer the left paddle, Up and Down the right
      one, Escape toggles the pause; any other key is ignored. */
  function KeyPressed(s: GameState, keysym: string): (r: GameState)
    ensures r.leftDy == (if keysym == "w" then -SPEED else if keysym == "s" then SPEED else s.leftDy)
    ensures r.rightDy == (if keysym == "Up" then -SPEED else if keysym == "Down" then SPEED else s.rightDy)
    ensures r.paused == (if keysym == "Escape" then !s.paused else s.paused)
    ensures r.(leftDy := s.leftDy, rightDy := s.rightDy, paused := s.paused) == s
    ensures Inv(s) ==> Inv(r)
  {
    if keysym == "w" then s.(leftDy := -SPEED)
    else if keysym == "s" then s.(leftDy := SPEED)
    else if keysym == "Up" then s.(rightDy := -SPEED)
    else if keysym == "Down" then s.(rightDy := SPEED)
    else if keysym == "Escape" then PauseToggled(s)
    else s
  }

  /** A key going up: releasing either key of a paddle stops that paddle,
      whichever of its two keys was pressed last. */
  function KeyReleased(s: GameState, keysym: string): (r: GameState)
    ensures r.leftDy == (if keysym == "w" || keysym == "s" then 0 else s.leftDy)
    ensures r.rightDy == (if keysym == "Up" || keysym == "Down" then 0 else s.rightDy)
    ensures r.(leftDy := s.leftDy, rightDy := s.rightDy) == s
    ensures Inv(s) ==> Inv(r)
  {
    if keysym == "w" || keysym == "s" then s.(leftDy := 0)
    else if keysym == "Up" || keysym == "Down" then s.(rightDy := 0)
    else s
  }

  /** The Reset button: a full restart of the match, whatever the state
      before. The paddles keep their positions and velocities. */
  function GameReset(s: GameState): (r: GameState)
    ensures !r.paused && r.scoreLeft == 0 && r.scoreRight == 0
    ensures r.ball == CentredBall() && r.ballDx == BALL_SPEED_X && r.ballDy == BALL_SPEED_Y
    ensures r.left == s.left && r.right == s.right
    ensures r.leftDy == s.leftDy && r.rightDy == s.rightDy
    ensures Inv(s) ==> Inv(r)
  {
    s.(paused := false, scoreLeft := 0, scoreRight := 0, ball := CentredBall(),
       ballDx := BALL_SPEED_X, ballDy := BALL_SPEED_Y)
  }

  // ---------------------------------------------------------------------
  // One tick of the game loop

  /** A paddle after it has been moved: one above the top of the field is
      pushed down to touch it, otherwise one below the bottom is pushed up
      to touch it. Clamping, not bouncing: the velocity is not touched. */
  function ClampedPaddle(p: Box): (r: Box)
    ensures r.x0 == p.x0 && r.x1 == p.x1 && r.y1 - r.y0 == p.y1 - p.y0
    ensures 0 <= p.y0 && p.y1 <= HEIGHT ==> r == p
    ensures p.y0 < 0 ==> r.y0 == 0
    ensures 0 <= p.y0 && HEIGHT < p.y1 ==> r.y1 == HEIGHT
    ensures 0 <= p.y1 - p.y0 <= HEIGHT ==> 0 <= r.y0 && r.y1 <= HEIGHT
  {
    if p.y0 < 0 then p.Moved(0, -p.y0)
    else if p.y1 > HEIGHT then p.Moved(0, HEIGHT - p.y1)
    else p
  }

  /** Each paddle moved by its velocity, then clamped into the field. The
      paddles end up inside the field whatever their velocities. */
  function PaddlesMoved(s: GameState): (r: GameState)
    ensures r.(left := s.left, right := s.right) == s
    ensures PaddleAt(s.left, LEFT_PADDLE_X) ==> PaddleAt(r.left, LEFT_PADDLE_X)
    ensures PaddleAt(s.right, RIGHT_PADDLE_X) ==> PaddleAt(r.right, RIGHT_PADDLE_X)
    ensures 0 <= s.left.y0 + s.leftDy && s.left.y1 + s.leftDy <= HEIGHT ==>
              r.left == s.left.Moved(0, s.leftDy)
    ensures 0 <= s.right.y0 + s.rightDy && s.right.y1 + s.rightDy <= HEIGHT ==>
              r.right == s.right.Moved(0, s.rightDy)
    ensures s.left.y0 + s.leftDy < 0 ==> r.left.y0 == 0
    ensures 0 <= s.left.y0 + s.leftDy && HEIGHT < s.left.y1 + s.leftDy ==> r.left.y1 == HEIGHT
    ensures s.right.y0 + s.rightDy < 0 ==> r.right.y0 == 0
    ensures 0 <= s.right.y0 + s.rightDy && HEIGHT < s.right.y1 + s.rightDy ==> r.right.y1 == HEIGHT
    ensures PaddleAt(s.left, LEFT_PADDLE_X) && 0 <= s.leftDy ==> s.left.y0 <= r.left.y0
    ensures PaddleAt(s.left, LEFT_PADDLE_X) && s.leftDy <= 0 ==> r.left.y0 <= s.left.y0
    ensures PaddleAt(s.right, RIGHT_PADDLE_X) && 0 <= s.rightDy ==> s.right.y0 <= r.right.y0
    ensures PaddleAt(s.right, RIGHT_PADDLE_X) && s.rightDy <= 0 ==> r.right.y0 <= s.right.y0
  {
    s.(left := ClampedPaddle(s.left.Moved(0, s.leftDy)),
       right := ClampedPaddle(s.right.Moved(0, s.rightDy)))
  }

  /** The ball moved by its velocity; nothing else changes. */
  function BallMoved(s: GameState): (r: GameState)
    ensures r.ball.x0 - s.ball.x0 == s.ballDx && r.ball.y0 - s.ball.y0 == s.ballDy
    ensures r.ball.x1 - r.ball.x0 == s.ball.x1 - s.ball.x0
    ensures r.ball.y1 - r.ball.y0 == s.ball.y1 - s.ball.y0
    ensures r.(ball := s.ball) == s
  {
    s.(ball := s.ball.Moved(s.ballDx, s.ballDy))
  }

  /** After a goal: the ball is put back in the middle and its horizontal
      direction is reversed; its vertical velocity is left as it was. */
  function BallReset(s: GameState): (r: GameState)
    ensures r.ball == CentredBall()
    ensures r.ballDx == -s.ballDx
    ensures r.(ball := s.ball, ballDx := s.ballDx) == s
  {
    s.(ball := CentredBall(), ballDx := -s.ballDx)
  }

  // The five conditions of the collision check, each on the ball's box as
  // it was at the start of the check.
  predicate HitsWall(b: Box)
  {
    b.y0 <= 0 || b.y1 >= HEIGHT
  }

  predicate HitsLeftPaddle(b: Box, p: Box)
  {
    b.x0 <= p.x1 && p.y0 <= b.y1 && p.y1 >= b.y0
  }

  predicate HitsRightPaddle(b: Box, p: Box)
  {
    b.x1 >= p.x0 && p.y0 <= b.y1 && p.y1 >= b.y0
  }

  predicate InLeftGoal(b: Box)
  {
    b.x0 <= 0
  }

  predicate InRightGoal(b: Box)
  {
    b.x1 >= WIDTH
  }

  /** How many of the four checks that reverse the horizontal velocity fire. */
  function HorizontalFlips(s: GameState): nat
  {
    (if HitsLeftPaddle(s.ball, s.left) then 1 else 0) +
    (if HitsRightPaddle(s.ball, s.right) then 1 else 0) +
    (if InLeftGoal(s.ball) then 1 else 0) +
    (if InRightGoal(s.ball) then 1 else 0)
  }

  /** The collision check: wall, left paddle, right paddle, left goal, right
      goal, in that order, every test reading the ball's box as it was when
      the check began (even after a goal has re-centred the ball). */
  function Collided(s: GameState): (r: GameState)
    ensures r.ballDy == (if HitsWall(s.ball) then -s.ballDy else s.ballDy)
    ensures r.ballDx == (if HorizontalFlips(s) % 2 == 0 then s.ballDx else -s.ballDx)
    ensures r.scoreRight == s.scoreRight + (if InLeftGoal(s.ball) then 1 else 0)
    ensures r.scoreLeft == s.scoreLeft + (if InRightGoal(s.ball) then 1 else 0)
    ensures r.ball == (if InLeftGoal(s.ball) || InRightGoal(s.ball) then CentredBall() else s.ball)
    ensures r.left == s.left && r.right == s.right
    ensures r.leftDy == s.leftDy && r.rightDy == s.rightDy && r.paused == s.paused
  {
    var b := s.ball;
    var s1 := if HitsWall(b) then s.(ballDy := -s.ballDy) else s;
    var s2 := if HitsLeftPaddle(b, s1.left) then s1.(ballDx := -s1.ballDx) else s1;
    var s3 := if HitsRightPaddle(b, s2.right) then s2.(ballDx := -s2.ballDx) else s2;
    var s4 := if InLeftGoal(b) then BallReset(s3.(scoreRight := s3.scoreRight + 1)) else s3;
    if InRightGoal(b) then BallReset(s4.(scoreLeft := s4.scoreLeft + 1)) else s4
  }

  /** One tick of the game loop: nothing while paused, otherwise the paddles
      move, then the ball, then the collision check runs. */
  function Tick(s: GameState): (r: GameState)
    ensures s.paused ==> r == s
    ensures r.paused == s.paused && r.leftDy == s.leftDy && r.rightDy == s.rightDy
    ensures Inv(s) ==> Inv(r)
    ensures s.scoreLeft <= r.scoreLeft && s.scoreRight <= r.scoreRight
    ensures Inv(s) ==> r.scoreLeft + r.scoreRight <= s.scoreLeft + s.scoreRight + 1
    ensures PaddleAt(s.left, LEFT_PADDLE_X) && !s.paused && 0 <= s.leftDy ==>
              r.left.y0 == (if s.left.y0 + s.leftDy <= HEIGHT - PADDLE_HEIGHT
                            then s.left.y0 + s.leftDy else HEIGHT - PADDLE_HEIGHT)
    ensures PaddleAt(s.left, LEFT_PADDLE_X) && s.leftDy == 0 ==> r.left == s.left
  {
    if s.paused then s else Collided(BallMoved(PaddlesMoved(s)))
  }
}
