# Pong game state, in Dafny

This project models the game logic of a two-player Pong game written with
tkinter (`pong.py`). Its `PongGame` object holds the ball, the two paddles,
their velocities, the score and a pause flag. It changes that state in five
ways: on key presses and releases, through the pause toggle, through the Reset
button of the pause menu, and once per timer tick. A tick moves and clamps the
paddles, moves the ball and runs an ordered collision and scoring check. The
canvas holds the item coordinates; here they are integer bounding boxes.

The project has three modules:

- `PongRules` (`rules.dfy`) holds the constants, a `Box` value for a canvas
  bounding box, and a `GameState` value for the whole state. It has one pure
  function per operation, and the properties of each operation are that
  function's `ensures`. The invariant `Inv` says four things. Paddles have
  their size and column and lie in `[0, HEIGHT]`. The ball keeps its size,
  stays strictly between the goal lines, and overlaps a wall by less than one
  step, and only while moving away from it. Ball speeds are ±4 and paddle
  speeds are -2, 0 or 2. Scores are non-negative.
- `Pong` (`game.dfy`) holds the class `PongGame`. Its fields are the ones the
  source updates in place, and the global pause flag is one of them. Each
  method is proved to leave exactly the state that its function in `PongRules`
  computes from the old state. `MovePaddles` keeps the source's loop over the
  two paddles.
- `PongSessions` (`sessions.dfy`) folds sequences of events and runs of ticks
  over the state. It proves the properties of whole sessions by induction.

Quirks of the source are kept as written:

- Both paddles start with velocity 2, so they drift down at the start.
- The constructor runs one tick straight away.
- Every collision test reads the ball's box as it was when the check began,
  even after a goal has re-centred the ball.
- A paddle bounce and a goal on the same tick reverse `dx` twice.
- A goal reverses `dx` and leaves `dy` as it was.
- The paddle tests ignore the ball's direction.

Clamping keeps a paddle inside the field whatever its velocity. This needs
only that the paddle is no taller than the field, not a bound on its velocity.

## Model

| member | source | states |
|---|---|---|
| `PongRules.Box.Moved` | pong.py:139-140 | moving a canvas item shifts its top-left corner by exactly (dx, dy) and keeps its width and height |
| `PongRules.CentredBall` | pong.py:195-196 | the re-centred ball's box has centre (WIDTH/2, HEIGHT/2) and sides 2·BALL_RADIUS |
| `PongRules.Initial` | pong.py:23-53 | the state built by the constructor satisfies the invariant; scores are 0 and the game is not paused; the ball is centred with velocity (4, 4); both paddles are vertically centred with velocity 2 |
| `PongRules.PauseToggled` | pong.py:82-89 | the pause flag flips and nothing else changes |
| `PongRules.KeyPressed` | pong.py:62-73 | w/s set the left velocity to -SPEED/+SPEED and Up/Down set the right one; Escape flips the pause flag; no other field changes, and any other key changes nothing; the invariant is kept |
| `PongRules.KeyReleased` | pong.py:75-80 | releasing w or s zeroes the left velocity and releasing Up or Down zeroes the right one; nothing else changes; the invariant is kept |
| `PongRules.GameReset` | pong.py:109-120 | from any state: unpaused, scores (0, 0), ball centred, ball velocity (4, 4); paddle positions and velocities unchanged; the invariant is kept |
| `PongRules.ClampedPaddle` | pong.py:143-148 | horizontal position and height are kept; a paddle in the field is left alone; one above the top ends with top 0; otherwise one below the bottom ends with bottom HEIGHT; any paddle no taller than the field ends inside it |
| `PongRules.PaddlesMoved` | pong.py:137-148 | only the paddles change; for each paddle: it stays in the field whatever its velocity; a move that stays inside is applied exactly; a move past the top leaves its top at 0, and otherwise a move past the bottom leaves its bottom at HEIGHT; moving down it never rises, and moving up it never drops |
| `PongRules.BallMoved` | pong.py:150-152 | the ball is shifted by its velocity, keeps its size, and nothing else changes |
| `PongRules.BallReset` | pong.py:193-197 | the ball is re-centred and `dx` negated; `dy` and everything else are unchanged |
| `PongRules.Collided` | pong.py:154-186 | the five tests are the predicates `HitsWall`, `HitsLeftPaddle`, `HitsRightPaddle`, `InLeftGoal` and `InRightGoal` on the box at the start of the check (pong.py:159, 164-166, 171-173, 177, 183); `dy` is negated exactly when that box touches the top or bottom wall; `dx` is negated when an odd number of the paddle and goal tests fire; the right score rises by exactly 1 when the left edge is at or past 0, and the left score likewise at the right goal; after a goal the ball is centred, otherwise it is untouched; paddles, paddle velocities and pause are unchanged |
| `PongRules.Tick` | pong.py:122-132 | a paused tick changes nothing; pause and paddle velocities are never changed; scores never go down in any state; under the invariant, the invariant is kept and the score sum rises by at most 1; an unpaused left paddle moving down by dy has its top moved to y0 + dy, or to HEIGHT - PADDLE_HEIGHT when that would pass the bottom; a left paddle standing still stays put |
| `Pong.PongGame.constructor` | pong.py:13-60 | the new game is in state `Tick(Initial())`, one tick after set-up, and satisfies the invariant |
| `Pong.PongGame.KeyPress` | pong.py:62-73 | the new state is `KeyPressed` of the old state |
| `Pong.PongGame.KeyRelease` | pong.py:75-80 | the new state is `KeyReleased` of the old state |
| `Pong.PongGame.TogglePause` | pong.py:82-89 | the new state is `PauseToggled` of the old state |
| `Pong.PongGame.ResetGame` | pong.py:109-120 | the new state is `GameReset` of the old state |
| `Pong.PongGame.GameLoop` | pong.py:122-132 | the new state is `Tick` of the old state |
| `Pong.PongGame.MovePaddles` | pong.py:137-148 | the new state is `PaddlesMoved` of the old state; each pass of the loop clamps one paddle |
| `Pong.PongGame.MoveBall` | pong.py:150-152 | the new state is `BallMoved` of the old state |
| `Pong.PongGame.CheckCollisions` | pong.py:154-186 | the new state is `Collided` of the old state, and the tests read the ball's box from before the check |
| `Pong.PongGame.ResetBall` | pong.py:193-197 | the new state is `BallReset` of the old state |
| `PongSessions.Started` | pong.py:59-60 | the game as constructed satisfies the invariant, is not paused and has scores (0, 0) |
| `PongSessions.Step` | pong.py:56-57 | every event the window delivers (key down, key up, timer tick, Reset click) keeps the invariant |
| `PongSessions.RunKeepsInv` | pong.py:62-132 | `Run` folds `Step` over a sequence of events and stands for the event loop; every such run from a state satisfying the invariant ends in a state satisfying it |
| `PongSessions.ReachableStatesKeepInv` | pong.py:13-60 | every state reachable from a new game satisfies the invariant: paddles in the field, speed magnitudes unchanged, ball between the goal lines |
| `PongSessions.PausedTicksChangeNothing` | pong.py:122-132 | any number of ticks while paused leaves the whole state unchanged |
| `PongSessions.TicksScoreBound` | pong.py:176-186 | `Ticks(s, n)` is n timer ticks with no other event, the repeated `root.after` call; over n ticks the invariant is kept, neither score goes down, and their sum rises by at most n |
| `PongSessions.TicksKeepControls` | pong.py:122-132 | ticks never change the pause flag or the paddle velocities |
| `PongSessions.HeldDownKeyMovesDown` | pong.py:137-148 | with the left paddle's velocity at +SPEED, every unpaused tick moves its top down by SPEED until the paddle touches the bottom, and then the paddle stays there; while paused it does not move |
| `PongSessions.ReleasedKeyStaysPut` | pong.py:137-148 | with the left paddle's velocity 0, it does not move over any number of ticks |
| `PongSessions.HoldThenRelease` | pong.py:62-80 | after pressing s, each of the next n unpaused ticks moves the left paddle's top down by SPEED, up to the bottom of the field; after releasing s, the paddle stays put over any number of ticks |
| `PongSessions.LeftPaddleReflects` | pong.py:162-167 | a ball moving left that reaches the left paddle without crossing the goal line leaves the tick moving right |
| `PongSessions.BounceAndGoalCancel` | pong.py:164-180 | a left-paddle bounce and a left goal on the same tick leave `dx` as it was; the right score rises by 1 and the ball is centred |
| `PongSessions.BallShuttlesBehindLeftPaddle` | pong.py:164-167 | for every unpaused state satisfying the invariant in which a ball moving left is at or behind the left paddle's face (and more than one step from the goal line), with the paddle still and overlapping the moved ball on both ticks, the ball is turned round on two ticks in a row and returns to the same horizontal position; a wall bounce on either tick does not matter |

## Left out

- The tkinter window, canvas, item creation and `root.resizable` are not modelled. The canvas coordinates are integer `Box` fields, and `canvas.move`/`coords` are `Box.Moved` and field assignment.
- The pause-menu window is left out: `show_pause_menu`, `hide_pause_menu`, its buttons and `root.quit`. They are user-interface lifetime, not game logic. The Reset button is modelled by `ResetGame`, and Quit, which ends the program, is not modelled.
- `root.after(16, ...)` rescheduling and `mainloop` are not modelled. One tick is one `GameLoop` call, and `PongSessions.Run` stands for the event loop.
- `PongSessions.Step` applies a Reset click in any state. In the program the button exists only while the menu is shown. The invariant is therefore proved over a superset of the real event sequences.
- `update_score` and the score label are display only and are not modelled. The label text is `"{left} : {right}"`.
- tkinter returns coordinates as floats. Every value involved is an integer, so the model uses `int`.
