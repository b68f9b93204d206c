# Slingshot game: turns, rounds and the countdown

A formal model of the game logic of a two-team slingshot game built on the
Phaser engine. Two teams of three balls sit on a field with a shared target
ball in the centre. The model covers:

- Aiming: a player presses on one of its team's balls, drags back and
  releases. This commits an aim vector, clamped to length 1000.
- Launching: when every ball of both teams holds a non-zero vector, the
  launch button appears. Pressing it throws every player opposite to its
  vector at five times its length.
- Friction: each frame, a moving ball slows by 1 % and stops dead below
  speed 10.
- Settling: once every ball is slower than 5, aiming opens again.
- Goals: a target overlapping a goal while faster than 5 scores a point for
  the team that does not defend that goal. It also starts a three-second
  pause. At the end of the pause a team at exactly 10 points wins;
  otherwise a new round begins.
- The countdown: three minutes, shown as `MM:SS`. Reaching zero ends the
  match; the better score wins or the match is a draw.
- Restart: the reset button starts a new match.

The project has six modules:

- `Geometry`: vectors over the reals. Lengths are compared through their
  squares.
- `JsText`: the JavaScript behaviour the countdown formatter relies on.
  This is `Math.floor`, the truncating `%`, `toString` on integers and
  `padStart(2, '0')`.
- `Motion`: the per-frame friction step on a velocity.
- `Balls`: one ball.
  - `BallState` and pure functions on it say what each handler does.
  - `class Ball` holds the same fields and updates them in place. Each
    method is proved to perform the matching function.
- `Scene`: the game scene, built the same way as `Balls`.
  - `SceneState` is the states of both teams and of the target, the
    scene's variables (`SceneVars`) and what its display shows (`Hud`).
    These are the launch button, the two readiness labels, the result
    banner, the reset button and the number the timer text shows.
  - Functions on `SceneState` specify the handlers, and lemmas state what
    the handlers promise.
  - `class GameScene` holds references to its `Ball` objects, its
    variables and its display state. Each handler is a method proved to
    perform its function. The per-team `forEach` loops are `while` loops
    over the balls.
  - `GameScene.Valid()` says no ball appears twice among the teams and the
    target. The constructor establishes it and the methods require it.
  - Presses and drags on a ball are the `Ball` methods `OnPointerDown` and
    `OnPointerMove`, called on that ball. Only the release reaches the
    scene: `GameScene.OnPointerUpAt` runs the ball's `onPointerUp` and then
    delivers its `vectorDrawn` event as a direct call to the scene's handler.
- `TimerManager`: the stand-alone copy of the formatter and of the timer
  callback.
- `Lifecycle`: every callback as one event of a state machine, presses and
  drags included. It proves an invariant of every reachable scene: full
  teams, sane scores and clock, and every ball's aim within 1000. From it
  follow that the timer text always reads back as a valid `MM:SS`, that a
  launch always settles and re-opens aiming, and that only goals and
  restarts change the scores. An engine frame is two events: every ball's
  `update`, which listens on the scene's `update` event (Ball.js:43), and
  then the scene's own `update` with its settle check (GameScene.js:516-522).
  The launch result is proved for runs of such frames.

The model follows the code as written, including these behaviours of it:

- The settle check in `update` has no `isResetting` test, so it re-opens
  aiming during a goal pause (GameScene.js:516-522).
- Reaching the result screen does not stop the settle check. Aiming
  re-opens under the result text, so the end of a match is not sticky.
- Every `resultScreen` adds a new text object (GameScene.js:449), and
  `resetGame` hides only the last one (GameScene.js:484). A match can reach
  a second result screen before a restart (the clock runs out, aiming
  re-opens, then a goal reaches 10), and its first result text then stays
  on the display after the restart.
- Before the first result screen `resultText` is `null`, so `resetGame`
  would throw at GameScene.js:484, after zeroing the scores and hiding the
  button. The reset button is hidden then, so this cannot happen in play.
- After a goal, `objectDeceleration(0.95)` is applied once, not per frame.
  Its stop test reads the already scaled velocity, because `velocity` is a
  live reference to the ball's velocity.
- A press does not clear `vector`. A press and release without a drag
  commits whatever `vector` held before.
- Only a score exactly equal to the winning score ends the match.
- `endGame` keeps its winner in a local variable and does not set the
  scene's `winner` field.
- `resetGame` sets the clock back to 180 but does not update the timer
  text.
- The scene's target stays aimable during a goal pause
  (GameScene.js:112-113, 501 and 403): it is frozen, and its drawing flag
  is set after every round reset.
- Only the target is made movable by `resetRound`; every player is left
  frozen by its `reset`. The target's drawing flag is set by `reset`.
- The delayed goal callback checks the left score first
  (GameScene.js:430-435).
- Restarting is possible only at the end of a match because the reset
  button is hidden at other times. The restart handler itself has no
  guard. Likewise the launch button takes a press only while it is shown.
  A hidden game object receives no pointer input, so in `Lifecycle` a
  press on a hidden button is not delivered.
- The countdown callback runs only while its timer is live. `endGame` and
  `resultScreen` remove the timer, and `resetGame` starts a new one.
- The callback three seconds after a goal is pending exactly while
  `isResetting` is set: a counted goal sets it and schedules the callback
  (GameScene.js:390 and 424), only the callback clears it (GameScene.js:425),
  and no goal counts while it is set. So in `Lifecycle` the callback fires
  only while `isResetting` holds.

## Model

| member | source | states |
|---|---|---|
| JsText.FloorDiv | src/GameScene.js:162 | `Math.floor(a / b)` for a positive divisor: the quotient `q` with `q*b <= a < q*b + b` |
| JsText.Rem | src/GameScene.js:163 | JavaScript's `%`: for a non-negative dividend the Euclidean remainder; for a negative one a remainder in `(-b, 0]` equal to minus the remainder of `-a` |
| JsText.DigitChar | src/GameScene.js:164 | a digit below 10 is written as the character `'0' + d` |
| JsText.NatToString | src/GameScene.js:164 | `toString` of a non-negative integer is a non-empty string of decimal digits |
| JsText.IntToString | src/GameScene.js:164 | `toString` of any integer is non-empty |
| JsText.PadStart2 | src/GameScene.js:164-166 | `padStart(2, '0')`: length is 2 or the old length; a long string is unchanged; a short one ends with the original and starts with zeros |
| JsText.NatToStringValue | src/GameScene.js:164 | reading back the digits that `toString` writes gives the number |
| JsText.TwoDigits | src/GameScene.js:164-166 | a number below 100, padded, is its tens digit followed by its units digit |
| Motion.FrictionStep | src/Ball.js:49-54 | one friction tick: velocity times 0.99, then (0,0) below speed 10; its properties are the lemmas below |
| Motion.FrictionStepSlows | src/Ball.js:49-54 | a friction tick never increases speed |
| Motion.FrictionStepSnaps | src/Ball.js:49-54 | after a tick a ball is at rest, or it moves at 0.99 of its old velocity and is still at least as fast as 10 |
| Motion.FrictionStepAtRest | src/Ball.js:49-54 | (0,0) is left at (0,0) by a tick |
| Motion.FixedPointStays | src/Ball.js:49-54 | a velocity one tick leaves alone is left alone by any number of ticks |
| Motion.RestStaysAtRest | src/Ball.js:49-54 | rest is a fixed point of friction over any number of ticks |
| Motion.FrictionTicksSlowDown | src/Ball.js:49-54 | speed never increases over any number of ticks |
| Motion.FrictionStopsWithin | src/Ball.js:49-54 | a ball whose squared speed is below `100 + 2n` is exactly at rest after `n + 1` ticks |
| Motion.StopsFromSpeed200 | src/Ball.js:49-54 | from speed 200 or less the velocity is exactly zero after 19952 ticks |
| Balls.Initial | src/Ball.js:10-37 | a new ball is at its position and at rest, frozen, drawable, not touched, with zero aim and stored vectors |
| Balls.Tick | src/Ball.js:46-56 | a frozen ball is unchanged; otherwise only the velocity changes, by one friction step |
| Balls.Ticked | src/Ball.js:46-56 | `n` calls of `update`; `TickedFollowsFriction` states what they do |
| Balls.TickedFollowsFriction | src/Ball.js:46-56 | any number of ticks leaves a frozen ball as it is, and moves a movable ball's velocity along the friction sequence, nothing else changing |
| Balls.LaunchedBallComesToRest | src/Ball.js:163-174 | a ball launched from a non-zero vector no longer than 1000 is exactly at rest after `LaunchSettleTicks` ticks |
| Balls.PointerDown | src/Ball.js:58-67 | only a frozen, drawable ball starts a drag, with start at its own position and end at the pointer; nothing else changes and `vector` is kept |
| Balls.Clamp | src/Ball.js:74-77 | the result is never longer than 1000; a vector within the limit is unchanged; a longer one is scaled by the factor in (0, 1] to exactly 1000 |
| Balls.PointerMove | src/Ball.js:69-81 | outside a drag, nothing changes; during a drag the end follows the pointer and `vector` is end minus start, clamped; no other field changes |
| Balls.PointerUp | src/Ball.js:83-92 | outside a drag, nothing changes; a drag ends and commits `vector` to `storedVector`; no other field changes |
| Balls.Launch | src/Ball.js:163-174 | a zero stored vector changes nothing; otherwise the ball becomes movable and undrawable with velocity `-5` times the stored vector; nothing else changes |
| Balls.DrawingEnabled | src/Ball.js:176-182 | frozen, drawable, both vectors zero; velocity, position and any drag in progress unchanged |
| Balls.ResetToStart | src/Ball.js:184-192 | back at the initial position at rest, frozen, drawable, both vectors zero; `touchDown` and the drag end points are not touched |
| Balls.AimConsistentInitially | src/Ball.js:10-16 | a new ball's committed vector equals its aim vector |
| Balls.AimConsistentPreserved | src/Ball.js:46-192 | every operation keeps "outside a drag, the stored vector equals the aim vector" |
| Balls.TapCommitsOldVector | src/Ball.js:58-92 | a press then release with no move commits the old `vector` |
| Balls.TapKeepsStoredVector | src/Ball.js:58-92 | outside a drag, such a tap leaves the committed vector as it was |
| Balls.TapAfterEnableDrawingCommitsZero | src/Ball.js:176-192 | after `enableDrawing` or `reset` a tap commits the zero vector |
| Balls.DragCommitsClampedVector | src/Ball.js:58-92 | press, drag and release on a frozen drawable ball commits the pointer minus the ball's position, clamped |
| Balls.LaunchedIgnoresGestures | src/Ball.js:163-174 | a launched ball ignores press, drag and release |
| Balls.LaunchExample | src/Ball.js:167-170 | stored vector (10, 0) launches at (-50, 0) and unfreezes the ball |
| Balls.Ball.constructor | src/Ball.js:2-44 | the new ball's fields are the initial state at the given position, with the given id |
| Balls.Ball.Update | src/Ball.js:46-56 | the fields become `Tick` of the old state |
| Balls.Ball.OnPointerDown | src/Ball.js:58-67 | the fields become `PointerDown` of the old state |
| Balls.Ball.OnPointerMove | src/Ball.js:69-81 | the fields become `PointerMove` of the old state |
| Balls.Ball.OnPointerUp | src/Ball.js:83-92 | the fields become `PointerUp` of the old state; the result says whether `vectorDrawn` is emitted, which is exactly when a drag was in progress |
| Balls.Ball.LaunchWithStoredVector | src/Ball.js:163-174 | the fields become `Launch` of the old state |
| Balls.Ball.EnableDrawing | src/Ball.js:176-182 | the fields become `DrawingEnabled` of the old state |
| Balls.Ball.Reset | src/Ball.js:184-192 | the fields become `ResetToStart` of the old state |
| Scene.Start | src/GameScene.js:4-35 | the scene after its constructor and `create`; `StartEffects` states it |
| Scene.StartEffects | src/GameScene.js:4-35 | a new scene has full teams, zero scores, 180 seconds, aiming closed, no pause, the timer running, no winner, no result text, both buttons hidden, and the target at the centre, movable and not drawable |
| Scene.FormatTime | src/GameScene.js:161-167 | the countdown text has at least five characters for every integer |
| Scene.FormatTimeNonNegative | src/GameScene.js:161-167 | for a non-negative count the text is the padded minutes, a colon and the padded seconds |
| Scene.FormatTimeThreeMinutes | src/GameScene.js:161-167 | 180 seconds read "03:00" |
| Scene.FormatTimeMinusOne | src/GameScene.js:161-167 | -1 reads "-1:-1" under JavaScript's floor and remainder |
| Scene.FormatTimeDigits | src/GameScene.js:161-167 | below 6000 the text is the two digits of the minutes, a colon and the two digits of the seconds |
| Scene.FormatTimeRoundTrip | src/GameScene.js:161-167 | below 6000 the text has length 5 with ':' at index 2, both fields are digits, and `MM*60 + SS` reads back the count |
| Scene.SecondsFieldInRange | src/GameScene.js:163-166 | for a non-negative count the seconds field is between "00" and "59" |
| Scene.EndGameWinner | src/GameScene.js:188-193 | "Player 1" exactly when the left score is higher, "Player 2" exactly when the right one is, and no winner exactly on a tie |
| Scene.ResultShown | src/GameScene.js:443-476 | `resultScreen`; `ResultShownEffects` states it |
| Scene.ResultShownEffects | src/GameScene.js:443-476 | the timer stops, aiming closes, one more result text is added and shown, reading "<team> Wins!" or "Draw!", every earlier result text is left as it was, the reset button shows; nothing else changes |
| Scene.GameEnded | src/GameScene.js:180-198 | `endGame`; `GameEndedEffects` states it |
| Scene.GameEndedEffects | src/GameScene.js:180-198 | the match end shows the result for the better score and leaves the `winner` field alone |
| Scene.TimerTick | src/GameScene.js:169-178 | `updateTimer`; `TimerTickEffects` states it |
| Scene.TimerTickEffects | src/GameScene.js:169-178 | paused, nothing changes; otherwise the time drops by exactly one and the text shows it; at zero or below aiming closes, the timer stops and the result for the score shows; above zero nothing else changes |
| Scene.CountdownEndsMatch | src/GameScene.js:169-178 | unpaused, after `gameTime` callbacks the time is 0, aiming is closed, the timer stopped and the result for the score shown |
| Scene.CountdownBeforeEnd | src/GameScene.js:169-178 | before zero, `k` callbacks take `k` off the clock and its text and change nothing else |
| Scene.TeamReady | src/GameScene.js:343-352 | a team is ready when every member's stored vector is non-zero; `ReadinessIsPerMember` states it member by member |
| Scene.ReadinessText | src/GameScene.js:355-356 | the label is "Ready!" exactly when the team is ready |
| Scene.VectorDrawn | src/GameScene.js:337-363 | `onPlayerVectorDrawn`; `VectorDrawnEffects` states it |
| Scene.VectorDrawnEffects | src/GameScene.js:337-363 | with aiming closed, nothing changes; otherwise one more vector is counted, each label is "Ready!" exactly when its team is ready, the button is visible exactly when it was or both teams are ready; the button is never hidden and no ball changes |
| Scene.ReadinessIsPerMember | src/GameScene.js:343-352 | replacing one member makes a team ready exactly when the new member and all others hold non-zero vectors |
| Scene.LaunchButtonOutlivesReadiness | src/GameScene.js:358-361 | a visible button stays visible after a report that finds a team not ready |
| Scene.LaunchPressed | src/GameScene.js:365-374 | `onLaunchButtonPressed`; `LaunchPressedEffects` states it |
| Scene.LaunchPressedEffects | src/GameScene.js:365-374 | aiming closes, the button hides, both labels read "Not Ready", every player (not the target) is launched; nothing else changes |
| Scene.ReadyTeamsAllLaunch | src/GameScene.js:365-374 | with both teams ready, every player becomes movable and undrawable with velocity `-5` times its stored vector |
| Scene.UnreadyPlayerStaysPut | src/GameScene.js:368-370 | a player without a vector is not changed by the launch |
| Scene.Decelerate | src/GameScene.js:376-386 | `objectDeceleration` for any factor; `DecelerateEffects` states it |
| Scene.DecelerateEffects | src/GameScene.js:376-386 | the velocity is scaled by `d`; if both scaled components are below 1 in size it becomes (0,0) and the ball is frozen, otherwise immovability is untouched; nothing else changes |
| Scene.DecelerationTestsScaledVelocity | src/GameScene.js:377-382 | a ball moving at (1.02, 0) is stopped by one 0.95 deceleration, because the test reads the scaled velocity |
| Scene.DecelerationSlows | src/GameScene.js:376-386 | a factor in [0, 1] never speeds a ball up |
| Scene.GoalScored | src/GameScene.js:388-422 | `onGoalScored`; `GoalScoredEffects` states it |
| Scene.GoalScoredEffects | src/GameScene.js:388-422 | an overlap with a slow target or during a pause changes nothing; a counted one sets both pause flags, slows every player once, stops and freezes the target and raises the score of the team not defending that goal |
| Scene.GoalRaisesOneScore | src/GameScene.js:412-421 | a counted goal raises exactly one score by exactly one and changes no other variable but the pause flags |
| Scene.SecondGoalIgnored | src/GameScene.js:389-391 | a second overlap after a counted goal changes nothing |
| Scene.GoalPausesCountdown | src/GameScene.js:391 | the timer callback changes nothing during a goal pause |
| Scene.TargetAimableDuringPause | src/GameScene.js:401-403 | the frozen target, with its drawing flag set as every round reset leaves it, can be aimed during the pause |
| Scene.RoundReset | src/GameScene.js:498-514 | `resetRound`; `RoundResetEffects` states it |
| Scene.RoundResetEffects | src/GameScene.js:498-514 | teams keep their size; every player is back at its initial position at rest, frozen, drawable, with no vectors; the target is back at rest, movable and drawable; aiming opens with no vectors counted and the button hidden; nothing else changes |
| Scene.RoundResetIdempotent | src/GameScene.js:498-514 | a second round reset changes nothing |
| Scene.FinishPause | src/GameScene.js:424-439 | the delayed callback of a goal; `FinishPauseEffects` states it |
| Scene.FinishPauseEffects | src/GameScene.js:424-439 | the pause ends; at the winning score the left team (checked first) or else the right team is recorded as winner and its result shown with aiming closed and the timer stopped; otherwise a round reset; scores unchanged |
| Scene.FinishPauseChecksLeftFirst | src/GameScene.js:430-435 | with both scores at the winning score the left team wins |
| Scene.ScorePastWinningStartsRound | src/GameScene.js:430-437 | a score past the winning score starts another round instead of ending the match |
| Scene.GameRestarted | src/GameScene.js:478-491 | `resetGame`; `GameRestartedEffects` states it |
| Scene.GameRestartedEffects | src/GameScene.js:478-491 | scores zero and reset button hidden; after a result screen, 180 seconds, timer running, only the latest result text hidden, balls as after a round reset, aiming open with no vectors counted; with no result text yet, nothing more (the handler throws); winner field and timer text unchanged |
| Scene.LatestHidden | src/GameScene.js:484 | only the last result text is hidden; the others are unchanged |
| Scene.FirstResultOutlivesRestart | src/GameScene.js:443-491 | after two result screens and a restart, the first result text is still shown and the second is hidden |
| Scene.NewShotEnabled | src/GameScene.js:532-538 | `enableNewShot`; `NewShotEnabledEffects` states it |
| Scene.NewShotEnabledEffects | src/GameScene.js:532-538 | aiming opens with no vectors counted, every player gets `enableDrawing`, the target and display are unchanged |
| Scene.NewShotEnabledIdempotent | src/GameScene.js:532-538 | enabling a new shot twice is the same as once |
| Scene.NewShotClearsReadiness | src/GameScene.js:532-538 | afterwards a team is ready only if it has no members |
| Scene.SceneUpdate | src/GameScene.js:516-522 | the scene's `update`; `SceneUpdateEffects` and `UpdateOpensAimingIff` state it |
| Scene.AllStopped | src/GameScene.js:524-530 | `allPlayersStopped`: every player and the target slower than 5; `GameScene.AllPlayersStopped` computes it on the balls |
| Scene.SceneUpdateEffects | src/GameScene.js:516-522 | with aiming closed and every ball stopped, a new shot is enabled; otherwise nothing changes |
| Scene.UpdateOpensAimingIff | src/GameScene.js:516-530 | aiming is open after `update` exactly when it was open before or every ball was slower than 5 |
| Scene.MatchEndNotSticky | src/GameScene.js:516-522 | once the balls are still, `update` re-opens aiming under a result banner, with the timer still stopped |
| Scene.SettleDuringGoalPause | src/GameScene.js:516-522 | the settle check re-opens aiming while a goal pause is still running |
| Scene.SettleReopensAiming | src/GameScene.js:516-538 | after a settle every player is frozen, drawable and has no committed vector, with no vectors counted |
| Scene.RoundResetStopsEverything | src/GameScene.js:498-514 | after a round reset every ball is stopped |
| Scene.UpdateAfterRoundReset | src/GameScene.js:510-522 | the settle check after a round reset changes nothing |
| Scene.BallTicks | src/Ball.js:43-56 | `n` rounds of every ball's own `update` alone, with no settle check between them; `BallTicksEffects` states it |
| Scene.BallTicksEffects | src/Ball.js:43-56 | frames of every ball's own `update` change the balls and nothing else |
| Scene.TickedStaysStopped | src/Ball.js:46-56 | friction never takes a stopped ball above the settle speed |
| Scene.PlayerSettlesAfterLaunch | src/Ball.js:163-174 | a stopped player with a committed vector no longer than 1000 is stopped again `LaunchSettleTicks` friction ticks after the launch |
| Scene.LaunchSettlesAndReopens | src/GameScene.js:365-538 | from a still scene, a launch followed by `LaunchSettleTicks` ball ticks alone leaves every ball stopped, and one settle check then re-opens aiming with every stored vector cleared; `Lifecycle.ReachableLaunchSettles` proves the same for engine frames, which run the settle check after every tick |
| Scene.Released | src/Ball.js:83-92 | a release on one ball with its `vectorDrawn` report handled by the scene; `ReleasedEffects` states it |
| Scene.ReleasedEffects | src/Ball.js:83-92 | a release outside a drag changes nothing; otherwise the ball commits its vector and the scene handles the `vectorDrawn` report |
| Scene.LastReleaseShowsLaunch | src/GameScene.js:337-363 | the last left player to commit a non-zero vector, with the right team ready, makes the button appear and both labels read "Ready!" |
| Scene.ReleaseKeepsLaunchButton | src/GameScene.js:358-361 | a release never hides the launch button |
| Scene.LaunchEach | src/GameScene.js:368-370 | the team's states become `Launch` of each old state |
| Scene.EnableDrawingEach | src/GameScene.js:535-537 | the team's states become `DrawingEnabled` of each old state |
| Scene.ResetEach | src/GameScene.js:504-507 | the team's states become `reset` then drawable, of each old state |
| Scene.DecelerateBall | src/GameScene.js:376-386 | one ball's state becomes its 0.95 deceleration |
| Scene.DecelerateEach | src/GameScene.js:396-400 | the team's states become the 0.95 deceleration of each old state |
| Scene.ResetTarget | src/GameScene.js:500-501 | the target is reset and made movable |
| Scene.FreezeBall | src/GameScene.js:401-403 | the ball is stopped and frozen; nothing else changes |
| Scene.MakeTeam | src/GameScene.js:290-335 | creates distinct fresh balls at the given positions, in their initial state, with ids prefix plus index |
| Scene.MakeTarget | src/GameScene.js:103-113 | creates the target at the centre, not drawable and movable |
| Scene.MakeBalls | src/GameScene.js:100-113 | creates both teams and the target, all distinct, in their start states |
| Scene.GameScene.constructor | src/GameScene.js:56-151 | the new scene is valid and its state is the start state for the given positions |
| Scene.GameScene.StartGameTimer | src/GameScene.js:152-159 | the countdown timer is live and nothing else changes |
| Scene.GameScene.StopTimer | src/GameScene.js:200-205 | the countdown timer is removed and nothing else changes |
| Scene.GameScene.UpdateTimer | src/GameScene.js:169-178 | the state becomes `TimerTick` of the old state |
| Scene.GameScene.EndGame | src/GameScene.js:180-198 | the state becomes `GameEnded` of the old state |
| Scene.GameScene.ResultScreen | src/GameScene.js:443-476 | the state becomes `ResultShown` of the old state |
| Scene.GameScene.OnPlayerVectorDrawn | src/GameScene.js:337-363 | the state becomes `VectorDrawn` of the old state |
| Scene.GameScene.OnLaunchButtonPressed | src/GameScene.js:365-374 | the state becomes `LaunchPressed` of the old state |
| Scene.GameScene.LaunchTeams | src/GameScene.js:367-370 | every player of both teams is launched and the target is untouched |
| Scene.GameScene.OnGoalScored | src/GameScene.js:388-422 | the state becomes `GoalScored` of the old state |
| Scene.GameScene.StopAll | src/GameScene.js:395-403 | every player is slowed once and the target is stopped and frozen |
| Scene.GameScene.DecelerateTeams | src/GameScene.js:396-400 | every player of both teams is slowed once and the target is untouched |
| Scene.GameScene.FinishGoalPause | src/GameScene.js:424-439 | the state becomes `FinishPause` of the old state |
| Scene.GameScene.ResetGame | src/GameScene.js:478-491 | the state becomes `GameRestarted` of the old state |
| Scene.GameScene.ResetRound | src/GameScene.js:498-514 | the state becomes `RoundReset` of the old state |
| Scene.GameScene.ResetBalls | src/GameScene.js:499-507 | the target and every player are reset as `resetRound` does |
| Scene.GameScene.ResetTeams | src/GameScene.js:503-507 | every player is reset and made drawable; the target is untouched |
| Scene.GameScene.Update | src/GameScene.js:516-522 | the state becomes `SceneUpdate` of the old state |
| Scene.GameScene.AllPlayersStopped | src/GameScene.js:524-530 | true exactly when every player and the target is slower than 5 |
| Scene.GameScene.EnableNewShot | src/GameScene.js:532-538 | the state becomes `NewShotEnabled` of the old state |
| Scene.GameScene.EnableDrawingTeams | src/GameScene.js:535-537 | every player gets `enableDrawing` and the target is untouched |
| Scene.GameScene.ReleaseBall | src/Ball.js:83-92 | `onPointerUp` on the referenced ball: the result says whether a drag was in progress, and only that ball changes |
| Scene.GameScene.OnPointerUpAt | src/GameScene.js:150 | a release on one ball, with its `vectorDrawn` report delivered to the scene: the state becomes `Released` of the old state |
| TimerManager.FormatTime | src/helpers/TimerManager.js:32-38 | the helper's text has at least five characters |
| TimerManager.SameAsScene | src/helpers/TimerManager.js:32-38 | the helper's formatter equals the scene's `formatTime` on every integer |
| TimerManager.FormatTimeRoundTrip | src/helpers/TimerManager.js:33-37 | below 6000 the text has length 5 with ':' at index 2, and `MM*60 + SS` reads back the count |
| TimerManager.SecondsFieldInRange | src/helpers/TimerManager.js:34-37 | for any non-negative count the seconds field is between "00" and "59"; `Lifecycle.ShownClockReadsBack` shows the count on display is always one |
| TimerManager.UpdateTimer | src/helpers/TimerManager.js:21-30 | the scene's state becomes `TimerTick` of its old state: unchanged while paused, otherwise one second less and the match ended at zero |
| Lifecycle.Step | src/GameScene.js:150-538 | the scene after one callback: the countdown only while its timer is live, the goal callback only while its pause runs, a button press only while the button is shown, pointer events on one ball; team sizes are kept |
| Lifecycle.Run | src/GameScene.js:150-538 | the scene after a sequence of callbacks; team sizes are kept |
| Lifecycle.StartSane | src/GameScene.js:4-35 | the start scene is sane |
| Lifecycle.TimerFiredKeepsVarsSane | src/GameScene.js:169-205 | a live timer's callback keeps the clock between 0 and 180, and it stops the timer when the clock runs out |
| Lifecycle.PauseOverKeepsVarsSane | src/GameScene.js:424-439 | the end of a goal pause keeps the scene's variables sane |
| Lifecycle.GoalKeepsVarsSane | src/GameScene.js:388-422 | a goal overlap keeps the scene's variables sane |
| Lifecycle.RestartKeepsVarsSane | src/GameScene.js:478-491 | a restart from the result screen keeps the variables sane: scores zero, 180 seconds with the timer live and the reset button hidden |
| Lifecycle.ReleaseKeepsVarsSane | src/GameScene.js:337-363 | a release and its `vectorDrawn` report keep the variables sane |
| Lifecycle.StepKeepsVarsSane | src/GameScene.js:150-538 | every event keeps non-negative scores, `isResetting == timerPaused`, a non-negative vector count, the winning score 10, a clock and a timer text between 0 and 180, a live timer with a second left, and the reset button shown exactly while the timer is stopped and only after a result text exists |
| Lifecycle.MotionKeepsBallSane | src/Ball.js:46-56 | launch, deceleration, a friction tick and freezing keep a ball's aim sane |
| Lifecycle.ResetsKeepBallSane | src/Ball.js:176-192 | `reset` and `enableDrawing` keep a ball's aim sane |
| Lifecycle.GesturesKeepBallSane | src/Ball.js:58-92 | press, drag and release keep "outside a drag the stored vector is the aim vector" and both vectors within 1000 |
| Lifecycle.RestartKeepsBallsSane | src/GameScene.js:478-491 | a restart keeps every ball's aim sane |
| Lifecycle.StepKeepsBallsSane | src/GameScene.js:150-538 | every event keeps full teams and every ball's aim sane |
| Lifecycle.StepPreservesSane | src/GameScene.js:150-538 | every event keeps the scene sane |
| Lifecycle.RunPreservesSane | src/GameScene.js:150-538 | every sequence of events keeps the scene sane |
| Lifecycle.ShownClockReadsBack | src/helpers/TimerManager.js:32-38 | in every reachable scene the timer text is five characters `MM:SS`, its seconds field is between "00" and "59", and it reads back as the count shown |
| Lifecycle.EngineFrames | src/Ball.js:43 | `n` engine frames: `2n` events alternating every ball's `update` and then the scene's `update` |
| Lifecycle.FirstEngineFrame | src/GameScene.js:516-522 | the first engine frame is one friction tick of every ball followed by one settle check |
| Lifecycle.EngineFramesRun | src/GameScene.js:516-522 | running the events of `n` engine frames is `n` rounds of ticking every ball and then the settle check |
| Lifecycle.ReopenedStays | src/GameScene.js:516-522 | once aiming is open with every player frozen and vector-free, any number of further engine frames keeps it so |
| Lifecycle.ClosedFramesReopen | src/GameScene.js:516-522 | with aiming closed and every ball stopped after `n` friction ticks, `n` engine frames re-open aiming with every player frozen and vector-free, whichever frame the settle check first succeeds in |
| Lifecycle.ReachableLaunchSettles | src/GameScene.js:365-538 | in every reachable scene that has stopped, pressing the shown launch button and `LaunchSettleTicks` engine frames, each a tick of every ball followed by the settle check, re-open aiming with no vector counted and every player frozen and vector-free |
| Lifecycle.ScoresChangeOnlyOnGoalOrRestart | src/GameScene.js:412-421 | no event but a goal overlap or the reset button changes a score |
| Lifecycle.ScoresNeverDropWithoutRestart | src/GameScene.js:412-421 | without the reset button the scores never decrease, however many events pass |

## Left out

- Rendering and sound are not modelled. This covers `drawLines`, textures, sounds, the "Scored!" banner, the score texts, fonts and the texture changes in `resultScreen` and `resetPlayers`. The display state kept is the launch and reset button visibility, the readiness labels, the result text objects with their visibility and the number the timer text shows (`Hud`).
- The physics engine is not modelled. This covers bounce, collisions, world bounds, drag and damping, and how the engine moves a ball's position. A frame changes only velocities, through each ball's own `update`. A goal overlap is an event.
- IEEE floating point and the square root inside `length()` and `normalize()` are left out. Speeds are compared as squared lengths over the reals.
- Balls.Ball.OnPointerMove: requires the caller to supply the clamp factor `1000 / length(end - start)` in place of the square root. This is needed only when the drag is longer than 1000. The source computes it itself.
- Timer scheduling is left out: `time.addEvent`, `delayedCall(3000, …)` and `gameTimer.remove`. A live countdown timer is the flag `timerRunning`. The callbacks are methods that the environment calls (`UpdateTimer`, `FinishGoalPause`). The reset button, which starts a new timer, is shown only while the timer is stopped, so one flag suffices.
- Listener registration (`input.on` and `off`, `events.on`) is left out. Pointer events arrive as method calls on a given ball, and each event is delivered once. A second press before a release registers the move and up listeners twice; the repeated delivery is not modelled.
- Scene construction layout is left out: `createTeams` positions, the goal posts, the buttons and `setupCollisions`. The constructor takes the two teams' positions and the centre.
- `TimerManager.startGameTimer` is left out. It only creates a timer and a text.
- `src/HomeScene.js` and `src/Main.js` are left out. They are a start screen and the engine configuration.
- `console.log` calls and the unused `playerId` argument are not modelled.
- JavaScript numbers are doubles. Scores, the clock and the vector count are integers here. The values reached are small.
- Scene.DecelerateBall: models `objectDeceleration` only with the factor 0.95, which is the factor of its only call site. `Scene.Decelerate` states it for every factor.
- Lifecycle.Step: delivers a launch press whenever the launch button is shown, also while the reset button is shown. The reset button is created after it at the same place and depth, so Phaser would hand the press to the reset button. The model therefore allows more runs than the game can produce, and every invariant proved over `Run` still covers the real ones.
- Balls.LaunchedBallComesToRest: the tick bound `LaunchSettleTicks` is a safe bound, not the exact number of frames a launch needs to stop.
