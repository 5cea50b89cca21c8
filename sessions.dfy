/** Whole sessions: the events the window delivers to the game, folded over
    the state, and the properties that hold over many ticks. */
module PongSessions {
  import opened PongRules

  /** What the event loop hands to the game: a key going down or up, the
      timer firing one tick, or a click on the pause menu's Reset button. */
  datatype Event = KeyDown(keysym: string) | KeyUp(keysym: string) | Frame | ResetClicked

  /** The state the game object is in once it has been built. */
  function Started(): (s: GameState)
    ensures Inv(s) && !s.paused && s.scoreLeft == 0 && s.scoreRight == 0
  {
    Tick(Initial())
  }

  function Step(s: GameState, e: Event): (r: GameState)
    ensures Inv(s) ==> Inv(r)
  {
    match e
    case KeyDown(k) => KeyPressed(s, k)
    case KeyUp(k) => KeyReleased(s, k)
    case Frame => Tick(s)
    case ResetClicked => GameReset(s)
  }

  function Run(s: GameState, events: seq<Event>): GameState
    decreases |events|
  {
    if events == [] then s else Run(Step(s, events[0]), events[1..])
  }

  /** n ticks of the game loop with no other event in between. */
  function Ticks(s: GameState, n: nat): GameState
    decreases n
  {
    if n == 0 then s else Ticks(Tick(s), n - 1)
  }

  /** The invariant holds of every state a session can reach: the paddles stay
      inside the field, the ball stays between the goal lines and within one
      step of the walls, and the speeds keep their magnitudes. */
  lemma {:induction false} RunKeepsInv(s: GameState, events: seq<Event>)
    requires Inv(s)
    ensures Inv(Run(s, events))
    decreases |events|
  {
    if events != [] {
      RunKeepsInv(Step(s, events[0]), events[1..]);
    }
  }

  lemma {:induction false} ReachableStatesKeepInv(events: seq<Event>)
    ensures Inv(Run(Started(), events))
  {
    RunKeepsInv(Started(), events);
  }

  /** While the game is paused, ticks change nothing at all. */
  lemma {:induction false} PausedTicksChangeNothing(s: GameState, n: nat)
    requires s.paused
    ensures Ticks(s, n) == s
    decreases n
  {
    if n > 0 {
      PausedTicksChangeNothing(Tick(s), n - 1);
    }
  }

  /** Over n ticks neither score goes down and together they go up by at
      most n: one goal per tick at most. */
  lemma {:induction false} TicksScoreBound(s: GameState, n: nat)
    requires Inv(s)
    ensures Inv(Ticks(s, n))
    ensures s.scoreLeft <= Ticks(s, n).scoreLeft && s.scoreRight <= Ticks(s, n).scoreRight
    ensures Ticks(s, n).scoreLeft + Ticks(s, n).scoreRight <= s.scoreLeft + s.scoreRight + n
    decreases n
  {
    if n > 0 {
      TicksScoreBound(Tick(s), n - 1);
    }
  }

  lemma {:induction false} TicksUnfoldLast(s: GameState, n: nat)
    ensures Ticks(s, n + 1) == Tick(Ticks(s, n))
    decreases n
  {
    if n > 0 {
      TicksUnfoldLast(Tick(s), n - 1);
    }
  }

  /** Ticks keep the pause flag and both paddle velocities. */
  lemma {:induction false} TicksKeepControls(s: GameState, n: nat)
    ensures Ticks(s, n).paused == s.paused
    ensures Ticks(s, n).leftDy == s.leftDy && Ticks(s, n).rightDy == s.rightDy
    decreases n
  {
    if n > 0 {
      TicksKeepControls(Tick(s), n - 1);
    }
  }

  /** The top of a left paddle whose down key is held, one tick after it was
      at y0: SPEED lower, but no lower than where the paddle touches the
      bottom of the field; unchanged while the game is paused. */
  function HeldDownTop(y0: int, paused: bool): int
  {
    if paused then y0
    else if y0 + SPEED <= HEIGHT - PADDLE_HEIGHT then y0 + SPEED
    else HEIGHT - PADDLE_HEIGHT
  }

  /** Holding the left paddle's down key: on every unpaused tick the
      paddle's top goes down by SPEED until the paddle touches the bottom of
      the field, and then stays there; while paused it does not move. */
  lemma HeldDownKeyMovesDown(s: GameState, n: nat)
    requires Inv(s) && s.leftDy == SPEED
    ensures forall k :: 0 <= k < n ==>
              Ticks(s, k + 1).left.y0 == HeldDownTop(Ticks(s, k).left.y0, s.paused)
  {
    forall k | 0 <= k < n
      ensures Ticks(s, k + 1).left.y0 == HeldDownTop(Ticks(s, k).left.y0, s.paused)
    {
      TicksScoreBound(s, k);
      TicksKeepControls(s, k);
      TicksUnfoldLast(s, k);
    }
  }

  /** Once the key is released, the left paddle stays where it is. */
  lemma {:induction false} ReleasedKeyStaysPut(s: GameState, n: nat)
    requires Inv(s) && s.leftDy == 0
    ensures Ticks(s, n).left == s.left
    decreases n
  {
    if n > 0 {
      ReleasedKeyStaysPut(Tick(s), n - 1);
    }
  }

  /** The scenario of holding "s" for n ticks, then releasing it for m more:
      while the key is held, each unpaused tick moves the left paddle's top
      down by SPEED until the paddle reaches the bottom; once it is released
      the paddle does not move at all. */
  lemma HoldThenRelease(s: GameState, n: nat, m: nat)
    requires Inv(s)
    ensures var held := KeyPressed(s, "s");
            forall k :: 0 <= k < n ==>
              Ticks(held, k + 1).left.y0 == HeldDownTop(Ticks(held, k).left.y0, s.paused)
    ensures var released := KeyReleased(Ticks(KeyPressed(s, "s"), n), "s");
            Ticks(released, m).left == released.left
  {
    var held := KeyPressed(s, "s");
    HeldDownKeyMovesDown(held, n);
    TicksScoreBound(held, n);
    ReleasedKeyStaysPut(KeyReleased(Ticks(held, n), "s"), m);
  }

  /** A ball that reaches the left paddle while moving left leaves the tick
      moving right, unless it has also crossed the left goal line. */
  lemma LeftPaddleReflects(s: GameState)
    requires Inv(s) && !s.paused && s.ballDx < 0
    requires var m := BallMoved(PaddlesMoved(s));
             HitsLeftPaddle(m.ball, m.left) && !InLeftGoal(m.ball)
    ensures Tick(s).ballDx > 0
  {
  }

  /** A paddle bounce and a goal on the same tick reverse the horizontal
      velocity twice, so the ball is served again in the direction it was
      travelling. */
  lemma BounceAndGoalCancel(s: GameState)
    requires Inv(s) && !s.paused
    requires var m := BallMoved(PaddlesMoved(s));
             HitsLeftPaddle(m.ball, m.left) && InLeftGoal(m.ball)
    ensures Tick(s).ballDx == s.ballDx
    ensures Tick(s).scoreRight == s.scoreRight + 1 && Tick(s).ball == CentredBall()
  {
  }

  /** The paddle tests do not look at the ball's direction. While the game
      runs, a ball moving left that is already at or behind the left paddle's
      face, with the paddle standing still alongside it on both ticks, is
      turned round on each tick and shuttles between two positions instead
      of rebounding. */
  lemma BallShuttlesBehindLeftPaddle(s: GameState)
    requires Inv(s) && !s.paused && s.leftDy == 0
    requires s.ballDx == -BALL_SPEED_X
    requires BALL_SPEED_X < s.ball.x0 <= s.left.x1
    requires HitsLeftPaddle(s.ball.Moved(s.ballDx, s.ballDy), s.left)
    requires var t := Tick(s);
             HitsLeftPaddle(t.ball.Moved(t.ballDx, t.ballDy), s.left)
    ensures Ticks(s, 1).ballDx == -s.ballDx && Ticks(s, 1).ball.x0 < s.ball.x0
    ensures Ticks(s, 2).ballDx == s.ballDx && Ticks(s, 2).ball.x0 == s.ball.x0
  {
  }
}
