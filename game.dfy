/** The game object: the fields the running game updates in place. Every
    method is proved to leave exactly the state that its pure counterpart in
    PongRules computes from the state before the call. */
module Pong {
  import opened PongRules

  class PongGame {
    // Boxes held by the canvas for the ball and the two paddles.
    var ball: Box
    var paddleLeft: Box
    var paddleRight: Box
    var ballDx: int
    var ballDy: int
    var leftPaddleDy: int
    var rightPaddleDy: int
    var scoreLeft: int
    var scoreRight: int
    // The pause flag, a field of the game rather than process-wide state.
    var paused: bool

    /** The value of the whole game state. */
    ghost function State(): GameState
      reads this
    {
      GameState(ball, paddleLeft, paddleRight, ballDx, ballDy,
                leftPaddleDy, rightPaddleDy, scoreLeft, scoreRight, paused)
    }

    /** Sets up the score, paddles, ball and velocities, then runs the first
        tick of the game loop. */
    constructor ()
      ensures State() == Tick(Initial())
      ensures Inv(State())
    {
      scoreLeft := 0;
      scoreRight := 0;
      paddleLeft := Box(LEFT_PADDLE_X, HEIGHT / 2 - PADDLE_HEIGHT / 2,
                        LEFT_PADDLE_X + PADDLE_WIDTH, HEIGHT / 2 + PADDLE_HEIGHT / 2);
      paddleRight := Box(RIGHT_PADDLE_X, HEIGHT / 2 - PADDLE_HEIGHT / 2,
                         RIGHT_PADDLE_X + PADDLE_WIDTH, HEIGHT / 2 + PADDLE_HEIGHT / 2);
      ball := CentredBall();
      ballDx := BALL_SPEED_X;
      ballDy := BALL_SPEED_Y;
      leftPaddleDy := 2;
      rightPaddleDy := 2;
      paused := false;
      new;
      GameLoop();
    }

    method KeyPress(keysym: string)
      modifies this
      ensures State() == KeyPressed(old(State()), keysym)
    {
      if keysym == "w" {
        leftPaddleDy := -SPEED;
      } else if keysym == "s" {
        leftPaddleDy := SPEED;
      } else if keysym == "Up" {
        rightPaddleDy := -SPEED;
      } else if keysym == "Down" {
        rightPaddleDy := SPEED;
      } else if keysym == "Escape" {
        TogglePause();
      }
    }

    method KeyRelease(keysym: string)
      modifies this
      ensures State() == KeyReleased(old(State()), keysym)
    {
      if keysym == "w" || keysym == "s" {
        leftPaddleDy := 0;
      } else if keysym == "Up" || keysym == "Down" {
        rightPaddleDy := 0;
      }
    }

    method TogglePause()
      modifies this
      ensures State() == PauseToggled(old(State()))
    {
      paused := !paused;
    }

    method ResetGame()
      modifies this
      ensures State() == GameReset(old(State()))
    {
      paused := false;
      scoreLeft := 0;
      scoreRight := 0;
      ball := CentredBall();
      ballDx := BALL_SPEED_X;
      ballDy := BALL_SPEED_Y;
    }

    /** One tick; the rescheduling of the next tick is the caller's. */
    method GameLoop()
      modifies this
      ensures State() == Tick(old(State()))
    {
      if !paused {
        MovePaddles();
        MoveBall();
        CheckCollisions();
      }
    }

    method MovePaddles()
      modifies this
      ensures State() == PaddlesMoved(old(State()))
    {
      paddleLeft := paddleLeft.Moved(0, leftPaddleDy);
      paddleRight := paddleRight.Moved(0, rightPaddleDy);
      ghost var moved := State();
      // Keep each paddle inside the field, one paddle per iteration.
      for i := 0 to 2
        invariant State() == moved.(
          left := if i < 1 then moved.left else ClampedPaddle(moved.left),
          right := if i < 2 then moved.right else ClampedPaddle(moved.right))
      {
        var coords := if i == 0 then paddleLeft else paddleRight;
        var shift := 0;
        if coords.y0 < 0 {
          shift := -coords.y0;
        } else if coords.y1 > HEIGHT {
          shift := HEIGHT - coords.y1;
        }
        if i == 0 {
          paddleLeft := coords.Moved(0, shift);
        } else {
          paddleRight := coords.Moved(0, shift);
        }
      }
    }

    method MoveBall()
      modifies this
      ensures State() == BallMoved(old(State()))
    {
      ball := ball.Moved(ballDx, ballDy);
    }

    method CheckCollisions()
      modifies this
      ensures State() == Collided(old(State()))
    {
      var b := ball;
      if HitsWall(b) {
        ballDy := -ballDy;
      }
      if HitsLeftPaddle(b, paddleLeft) {
        ballDx := -ballDx;
      }
      if HitsRightPaddle(b, paddleRight) {
        ballDx := -ballDx;
      }
      if InLeftGoal(b) {
        scoreRight := scoreRight + 1;
        ResetBall();
      }
      if InRightGoal(b) {
        scoreLeft := scoreLeft + 1;
        ResetBall();
      }
    }

    method ResetBall()
      modifies this
      ensures State() == BallReset(old(State()))
    {
      ball := CentredBall();
      ballDx := -ballDx;
    }
  }
}
