/** The scene as a state machine: every callback the game engine or the player
    can trigger is an event, and a match is the scene the events produce one
    after another from the scene `create` leaves. */
module Lifecycle {
  import opened Geometry
  import opened Balls
  import opened Scene
  import opened JsText
  import TimerManager

  datatype Event =
    | TimerFired                                 // the one-second countdown callback
    | PauseOver                                  // the callback three seconds after a goal
    | GoalOverlap(zone: GoalZone)                // the target overlaps a goal post
    | LaunchPress                                // the launch button
    | RestartPress                               // the reset button
    | Frame                                      // the scene's per-frame `update`
    | PhysicsTick                                // every ball's per-frame `update`
    | Press(who: BallRef, pointer: Vec)          // `pointerdown` on a ball
    | Drag(who: BallRef, pointer: Vec, k: real)  // `pointermove`, with the clamp factor
    | Release(who: BallRef)                      // `pointerup`

  /** The scene after one event. The countdown callback fires only while its
      timer is live, the callback after a goal only while its pause runs (the
      goal sets `isResetting` when it schedules the callback, and only the
      callback clears it), and a button takes a press only while it is shown. A
      pointer event on a ball that is not in the scene, or a drag without a
      valid clamp factor, cannot be delivered and leaves the scene as it is. */
  function Step(s: SceneState, e: Event): (r: SceneState)
    ensures |r.left| == |s.left| && |r.right| == |s.right|
  {
    match e
    case TimerFired => if s.vars.timerRunning then TimerTick(s) else s
    case PauseOver => if s.vars.isResetting then FinishPause(s) else s
    case GoalOverlap(zone) => GoalScored(s, zone)
    case LaunchPress => if s.hud.launchVisible then LaunchPressed(s) else s
    case RestartPress => if s.hud.resetVisible then GameRestarted(s) else s
    case Frame => SceneUpdate(s)
    case PhysicsTick => BallTicks(s, 1)
    case Press(who, pointer) =>
      if ValidRef(s, who) then WithBall(s, who, PointerDown(BallOf(s, who), pointer)) else s
    case Drag(who, pointer, k) =>
      if ValidRef(s, who) && MoveAllowed(BallOf(s, who), pointer, k)
      then WithBall(s, who, PointerMove(BallOf(s, who), pointer, k))
      else s
    case Release(who) => if ValidRef(s, who) then Released(s, who) else s
  }

  /** The events applied in order. */
  function Run(s: SceneState, es: seq<Event>): (r: SceneState)
    ensures |r.left| == |s.left| && |r.right| == |s.right|
    decreases |es|
  {
    if es == [] then s else Run(Step(s, es[0]), es[1..])
  }

  /** The countdown and the result screen: the clock and the number the timer
      text shows stay between zero and three minutes, a live timer has at
      least one second left, the restart button is shown exactly while the
      timer is stopped, and only after some result text has been added. */
  predicate ClockSane(s: SceneState) {
    && 0 <= s.vars.gameTime <= GameDuration
    && (s.vars.timerRunning ==> s.vars.gameTime >= 1)
    && 0 <= s.hud.timerShows <= GameDuration
    && s.hud.resetVisible == !s.vars.timerRunning
    && (s.hud.resetVisible ==> |s.hud.results| > 0)
  }

  /** The scene's own variables: scores that never go negative, the goal pause
      and the timer pause set and cleared together, a vector count that never
      goes negative and a fixed winning score. */
  predicate VarsSane(s: SceneState) {
    && s.vars.leftScore >= 0 && s.vars.rightScore >= 0
    && s.vars.isResetting == s.vars.timerPaused
    && s.vars.playersWithVectors >= 0
    && s.vars.winningScore == WinningScore
    && ClockSane(s)
  }

  /** A ball's aim: outside a drag the committed vector is the aim vector, and
      neither is longer than `MaximumLength`. */
  predicate BallSane(b: BallState) {
    && AimConsistent(b)
    && LengthSq(b.vector) <= MaximumLength * MaximumLength
    && LengthSq(b.storedVector) <= MaximumLength * MaximumLength
  }

  predicate TeamSane(team: seq<BallState>) {
    forall i :: 0 <= i < |team| ==> BallSane(team[i])
  }

  /** Full teams, and every ball's aim sane. */
  predicate BallsSane(s: SceneState) {
    && |s.left| == PlayersPerTeam && |s.right| == PlayersPerTeam
    && TeamSane(s.left) && TeamSane(s.right) && BallSane(s.target)
  }

  /** What holds of every scene a match can reach. */
  predicate Sane(s: SceneState) {
    VarsSane(s) && BallsSane(s)
  }

  lemma StartSane(leftPositions: seq<Vec>, rightPositions: seq<Vec>, center: Vec)
    requires |leftPositions| == PlayersPerTeam && |rightPositions| == PlayersPerTeam
    ensures Sane(Start(leftPositions, rightPositions, center))
  {
    var s := Start(leftPositions, rightPositions, center);
    StartEffects(leftPositions, rightPositions, center);
    UnaimedBallSane(s.target);
    forall i | 0 <= i < |s.left| ensures BallSane(s.left[i]) {
      UnaimedBallSane(s.left[i]);
    }
    forall i | 0 <= i < |s.right| ensures BallSane(s.right[i]) {
      UnaimedBallSane(s.right[i]);
    }
  }

  /** A ball with both vectors zero is sane. */
  lemma UnaimedBallSane(b: BallState)
    requires b.vector == Zero && b.storedVector == Zero
    ensures BallSane(b)
  {
    ZeroWithinMaximum();
  }

  lemma ZeroWithinMaximum()
    ensures LengthSq(Zero) <= MaximumLength * MaximumLength
  {
    assert LengthSq(Zero) == 0.0;
  }

  /** Every event keeps the scene's variables sane. */
  lemma StepKeepsVarsSane(s: SceneState, e: Event)
    requires VarsSane(s)
    ensures VarsSane(Step(s, e))
  {
    match e
    case TimerFired =>
      if s.vars.timerRunning {
        TimerFiredKeepsVarsSane(s);
      }
    case PauseOver =>
      if s.vars.isResetting {
        PauseOverKeepsVarsSane(s);
      }
    case GoalOverlap(zone) =>
      GoalKeepsVarsSane(s, zone);
    case LaunchPress =>
      LaunchPressedEffects(s);
    case RestartPress =>
      if s.hud.resetVisible {
        RestartKeepsVarsSane(s);
      }
    case Frame =>
      SceneUpdateEffects(s);
      NewShotEnabledEffects(s);
    case PhysicsTick =>
      BallTicksEffects(s, 1);
    case Press(who, pointer) =>
    case Drag(who, pointer, k) =>
    case Release(who) =>
      if ValidRef(s, who) {
        ReleaseKeepsVarsSane(s, who);
      }
  }

  lemma GoalKeepsVarsSane(s: SceneState, zone: GoalZone)
    requires VarsSane(s)
    ensures VarsSane(GoalScored(s, zone))
  {
    GoalScoredEffects(s, zone);
    if GoalCounts(s) {
      GoalRaisesOneScore(s, zone);
    }
  }

  /** A restart from the result screen zeroes the scores and restarts the
      clock and its timer with the reset button hidden again. */
  lemma RestartKeepsVarsSane(s: SceneState)
    requires VarsSane(s) && s.hud.resetVisible
    ensures VarsSane(GameRestarted(s))
  {
    GameRestartedEffects(s);
    var t := ScoresCleared(s);
    RoundResetEffects(t.(hud := t.hud.(results := LatestHidden(s.hud.results))));
  }

  lemma ReleaseKeepsVarsSane(s: SceneState, who: BallRef)
    requires VarsSane(s) && ValidRef(s, who)
    ensures VarsSane(Released(s, who))
  {
    ReleasedEffects(s, who);
    var b := BallOf(s, who);
    if Aiming(b) {
      VectorDrawnEffects(WithBall(s, who, PointerUp(b)));
    }
  }

  /** A live timer's callback keeps the clock sane: it only fires with a
      second left, and the match ends, stopping the timer, when it runs out. */
  lemma TimerFiredKeepsVarsSane(s: SceneState)
    requires VarsSane(s) && s.vars.timerRunning
    ensures VarsSane(TimerTick(s))
  {
    TimerTickEffects(s);
    if !s.vars.timerPaused && s.vars.gameTime - 1 <= 0 {
      var t := OneSecondLess(s);
      GameEndedEffects(t);
      ResultShownEffects(t, EndGameWinner(t.vars.leftScore, t.vars.rightScore));
    }
  }

  lemma PauseOverKeepsVarsSane(s: SceneState)
    requires VarsSane(s)
    ensures VarsSane(FinishPause(s))
  {
    FinishPauseEffects(s);
    var t := s.(vars := s.vars.(isResetting := false, timerPaused := false));
    if s.vars.leftScore == s.vars.winningScore {
      ResultShownEffects(t.(vars := t.vars.(winner := Some(LeftTeam))), Some(LeftTeam));
    } else if s.vars.rightScore == s.vars.winningScore {
      ResultShownEffects(t.(vars := t.vars.(winner := Some(RightTeam))), Some(RightTeam));
    } else {
      RoundResetEffects(t);
    }
  }

  /** The operations that move or stop a ball keep its aim sane. */
  lemma MotionKeepsBallSane(b: BallState)
    requires BallSane(b)
    ensures BallSane(Launch(b)) && BallSane(Decelerated(b)) && BallSane(Ticked(b, 1))
    ensures BallSane(b.(velocity := Zero, immovable := true))
  {
    var l, d, t, f := Launch(b), Decelerated(b), Ticked(b, 1), b.(velocity := Zero, immovable := true);
    assert l.vector == b.vector && l.storedVector == b.storedVector && l.touchDown == b.touchDown;
    assert d.vector == b.vector && d.storedVector == b.storedVector && d.touchDown == b.touchDown;
    assert t == Tick(b);
    assert t.vector == b.vector && t.storedVector == b.storedVector && t.touchDown == b.touchDown;
    SameAimSane(b, l);
    SameAimSane(b, d);
    SameAimSane(b, t);
    SameAimSane(b, f);
  }

  /** The resets clear both vectors, so they leave the aim sane. */
  lemma ResetsKeepBallSane(b: BallState)
    ensures BallSane(PlayerReset(b)) && BallSane(TargetReset(b)) && BallSane(DrawingEnabled(b))
  {
    UnaimedBallSane(PlayerReset(b));
    UnaimedBallSane(TargetReset(b));
    UnaimedBallSane(DrawingEnabled(b));
  }

  /** Pressing and releasing keep the aim sane, and so does a drag, which
      clamps the aim vector. */
  lemma GesturesKeepBallSane(b: BallState, pointer: Vec, k: real)
    requires BallSane(b)
    ensures BallSane(PointerDown(b, pointer)) && BallSane(PointerUp(b))
    ensures MoveAllowed(b, pointer, k) ==> BallSane(PointerMove(b, pointer, k))
  {
    SameAimSane(b, PointerDown(b, pointer));
    if Aiming(b) {
      assert PointerUp(b) == b.(touchDown := false, storedVector := b.vector);
    }
    if MoveAllowed(b, pointer, k) && Aiming(b) {
      var r := PointerMove(b, pointer, k);
      assert r.storedVector == b.storedVector && r.touchDown;
    }
  }

  /** An operation that leaves both vectors alone and ends no drag keeps the ball sane. */
  lemma SameAimSane(b: BallState, r: BallState)
    requires BallSane(b)
    requires r.vector == b.vector && r.storedVector == b.storedVector && (b.touchDown ==> r.touchDown)
    ensures BallSane(r)
  {
  }

  /** A team operation that keeps each ball sane keeps the team sane. */
  lemma MapKeepsTeamSane(team: seq<BallState>, f: BallState -> BallState)
    requires TeamSane(team)
    requires forall i :: 0 <= i < |team| ==> BallSane(f(team[i]))
    ensures TeamSane(MapBalls(team, f))
  {
  }

  /** Every event keeps the balls sane. */
  lemma StepKeepsBallsSane(s: SceneState, e: Event)
    requires BallsSane(s)
    ensures BallsSane(Step(s, e))
  {
    forall i | 0 <= i < |s.left| ensures BallSane(Launch(s.left[i])) && BallSane(Decelerated(s.left[i]))
      && BallSane(Ticked(s.left[i], 1)) && BallSane(DrawingEnabled(s.left[i])) {
      MotionKeepsBallSane(s.left[i]);
      ResetsKeepBallSane(s.left[i]);
    }
    forall i | 0 <= i < |s.right| ensures BallSane(Launch(s.right[i])) && BallSane(Decelerated(s.right[i]))
      && BallSane(Ticked(s.right[i], 1)) && BallSane(DrawingEnabled(s.right[i])) {
      MotionKeepsBallSane(s.right[i]);
      ResetsKeepBallSane(s.right[i]);
    }
    MotionKeepsBallSane(s.target);
    match e
    case TimerFired =>
      if s.vars.timerRunning {
        TimerTickKeepsBalls(s);
      }
    case PauseOver =>
      if s.vars.isResetting {
        FinishPauseKeepsBallsSane(s);
      }
    case GoalOverlap(zone) =>
      GoalScoredEffects(s, zone);
      MapKeepsTeamSane(s.left, Decelerated);
      MapKeepsTeamSane(s.right, Decelerated);
    case LaunchPress =>
      LaunchPressedEffects(s);
      MapKeepsTeamSane(s.left, Launch);
      MapKeepsTeamSane(s.right, Launch);
    case RestartPress =>
      if s.hud.resetVisible {
        RestartKeepsBallsSane(s);
      }
    case Frame =>
      SceneUpdateEffects(s);
      NewShotEnabledEffects(s);
      MapKeepsTeamSane(s.left, DrawingEnabled);
      MapKeepsTeamSane(s.right, DrawingEnabled);
    case PhysicsTick =>
      BallTicksEffects(s, 1);
      MapKeepsTeamSane(s.left, b => Ticked(b, 1));
      MapKeepsTeamSane(s.right, b => Ticked(b, 1));
    case Press(who, pointer) =>
      if ValidRef(s, who) {
        GesturesKeepBallSane(BallOf(s, who), pointer, 0.0);
        WithBallKeepsBallsSane(s, who, PointerDown(BallOf(s, who), pointer));
      }
    case Drag(who, pointer, k) =>
      if ValidRef(s, who) && MoveAllowed(BallOf(s, who), pointer, k) {
        GesturesKeepBallSane(BallOf(s, who), pointer, k);
        WithBallKeepsBallsSane(s, who, PointerMove(BallOf(s, who), pointer, k));
      }
    case Release(who) =>
      if ValidRef(s, who) {
        ReleasedEffects(s, who);
        var b := BallOf(s, who);
        if Aiming(b) {
          GesturesKeepBallSane(b, Zero, 0.0);
          WithBallKeepsBallsSane(s, who, PointerUp(b));
          VectorDrawnEffects(WithBall(s, who, PointerUp(b)));
        }
      }
  }

  lemma TimerTickKeepsBalls(s: SceneState)
    ensures TimerTick(s).left == s.left && TimerTick(s).right == s.right && TimerTick(s).target == s.target
  {
    TimerTickEffects(s);
    if !s.vars.timerPaused && s.vars.gameTime - 1 <= 0 {
      var t := OneSecondLess(s);
      GameEndedEffects(t);
      ResultShownEffects(t, EndGameWinner(t.vars.leftScore, t.vars.rightScore));
    }
  }

  lemma RoundResetKeepsBallsSane(s: SceneState)
    requires BallsSane(s)
    ensures BallsSane(RoundReset(s))
  {
    forall i | 0 <= i < |s.left| ensures BallSane(PlayerReset(s.left[i])) {
      ResetsKeepBallSane(s.left[i]);
    }
    forall i | 0 <= i < |s.right| ensures BallSane(PlayerReset(s.right[i])) {
      ResetsKeepBallSane(s.right[i]);
    }
    ResetsKeepBallSane(s.target);
    MapKeepsTeamSane(s.left, PlayerReset);
    MapKeepsTeamSane(s.right, PlayerReset);
  }

  lemma FinishPauseKeepsBallsSane(s: SceneState)
    requires BallsSane(s)
    ensures BallsSane(FinishPause(s))
  {
    var t := s.(vars := s.vars.(isResetting := false, timerPaused := false));
    if s.vars.leftScore == s.vars.winningScore {
      ResultShownEffects(t.(vars := t.vars.(winner := Some(LeftTeam))), Some(LeftTeam));
    } else if s.vars.rightScore == s.vars.winningScore {
      ResultShownEffects(t.(vars := t.vars.(winner := Some(RightTeam))), Some(RightTeam));
    } else {
      RoundResetKeepsBallsSane(t);
    }
  }

  lemma RestartKeepsBallsSane(s: SceneState)
    requires BallsSane(s)
    ensures BallsSane(GameRestarted(s))
  {
    var t := ScoresCleared(s);
    if |t.hud.results| > 0 {
      RoundResetKeepsBallsSane(t.(hud := t.hud.(results := LatestHidden(t.hud.results))));
    }
  }

  lemma WithBallKeepsBallsSane(s: SceneState, who: BallRef, b: BallState)
    requires BallsSane(s) && ValidRef(s, who) && BallSane(b)
    ensures BallsSane(WithBall(s, who, b))
  {
  }

  /** Every event keeps the scene sane. */
  lemma StepPreservesSane(s: SceneState, e: Event)
    requires Sane(s)
    ensures Sane(Step(s, e))
  {
    StepKeepsVarsSane(s, e);
    StepKeepsBallsSane(s, e);
  }

  /** Every match keeps the scene sane, however long it runs. */
  lemma {:induction false} RunPreservesSane(s: SceneState, es: seq<Event>)
    requires Sane(s)
    ensures Sane(Run(s, es))
    decreases |es|
  {
    if es != [] {
      StepPreservesSane(s, es[0]);
      RunPreservesSane(Step(s, es[0]), es[1..]);
    }
  }

  /** In every reachable scene the timer text is `MM:SS`, reads back as the
      count it shows, and its seconds field lies between "00" and "59". */
  lemma ShownClockReadsBack(s: SceneState)
    requires Sane(s)
    ensures var t := TimerManager.FormatTime(s.hud.timerShows);
      && |t| == 5 && t[2] == ':'
      && '0' <= t[3] <= '5' && '0' <= t[4] <= '9'
      && IsDigits(t[..2]) && IsDigits(t[3..])
      && DecimalValue(t[..2]) * 60 + DecimalValue(t[3..]) == s.hud.timerShows
  {
    TimerManager.FormatTimeRoundTrip(s.hud.timerShows);
    TimerManager.SecondsFieldInRange(s.hud.timerShows);
  }

  /** `n` engine frames. In each the balls' own `update` runs first, being
      listeners of the scene's `update` event, and then the scene's `update`,
      which makes the settle check. */
  function EngineFrames(n: nat): (es: seq<Event>)
    ensures |es| == 2 * n
    ensures forall i :: 0 <= i < |es| ==> es[i] == if i % 2 == 0 then PhysicsTick else Frame
    decreases n
  {
    if n == 0 then [] else [PhysicsTick, Frame] + EngineFrames(n - 1)
  }

  /** `n` engine frames, as scene functions: every ball ticks once, then the
      settle check runs. */
  function Frames(s: SceneState, n: nat): SceneState
    decreases n
  {
    if n == 0 then s else Frames(SceneUpdate(BallTicks(s, 1)), n - 1)
  }

  /** One engine frame is one friction tick of every ball and one settle check. */
  lemma FirstEngineFrame(s: SceneState, n: nat)
    requires n >= 1
    ensures Run(s, EngineFrames(n)) == Run(SceneUpdate(BallTicks(s, 1)), EngineFrames(n - 1))
  {
    var es := EngineFrames(n);
    var rest := EngineFrames(n - 1);
    assert es == [PhysicsTick, Frame] + rest;
    assert es[0] == PhysicsTick && es[1..] == [Frame] + rest;
    assert ([Frame] + rest)[0] == Frame && ([Frame] + rest)[1..] == rest;
  }

  /** The engine frame events amount to `Frames`. */
  lemma {:induction false} EngineFramesRun(s: SceneState, n: nat)
    ensures Run(s, EngineFrames(n)) == Frames(s, n)
    decreases n
  {
    if n >= 1 {
      FirstEngineFrame(s, n);
      EngineFramesRun(SceneUpdate(BallTicks(s, 1)), n - 1);
    }
  }

  lemma OneMoreTick(s: SceneState, m: nat)
    ensures BallTicks(BallTicks(s, 1), m) == BallTicks(s, m + 1)
  {
    var t := BallTicks(s, 1);
    assert forall b :: Ticked(Ticked(b, 1), m) == Ticked(b, m + 1) by {
      forall b ensures Ticked(Ticked(b, 1), m) == Ticked(b, m + 1) {
        assert Ticked(b, 1) == Tick(b);
      }
    }
    assert BallTicks(t, m).left == BallTicks(s, m + 1).left;
    assert BallTicks(t, m).right == BallTicks(s, m + 1).right;
  }

  /** Aiming is open, no vector is counted and every player is frozen with
      no vector: the scene the settle check leaves. */
  predicate Reopened(s: SceneState) {
    && s.vars.canDrawNewVectors && s.vars.playersWithVectors == 0
    && (forall i :: 0 <= i < |s.left| ==> s.left[i].immovable && !HasVector(s.left[i]))
    && (forall i :: 0 <= i < |s.right| ==> s.right[i].immovable && !HasVector(s.right[i]))
  }

  lemma FrozenTeamUnticked(team: seq<BallState>)
    requires forall i :: 0 <= i < |team| ==> team[i].immovable
    ensures MapBalls(team, b => Ticked(b, 1)) == team
  {
    forall i | 0 <= i < |team| ensures Ticked(team[i], 1) == team[i] {
      assert Ticked(team[i], 1) == Ticked(Tick(team[i]), 0);
    }
  }

  /** Once aiming has re-opened, further engine frames keep it so: the frozen
      players do not move and the settle check has nothing to do. */
  lemma {:induction false} ReopenedStays(s: SceneState, n: nat)
    requires Reopened(s)
    ensures Reopened(Frames(s, n))
    decreases n
  {
    if n >= 1 {
      var t := BallTicks(s, 1);
      FrozenTeamUnticked(s.left);
      FrozenTeamUnticked(s.right);
      assert t.vars == s.vars && t.left == s.left && t.right == s.right;
      assert SceneUpdate(t) == t;
      ReopenedStays(t, n - 1);
    }
  }

  /** While aiming is closed, engine frames tick the balls until the first
      frame whose settle check finds everything stopped; if every ball is
      stopped after `n` ticks, aiming has re-opened by frame `n`. */
  lemma {:induction false} ClosedFramesReopen(s: SceneState, n: nat)
    requires n >= 1 && !s.vars.canDrawNewVectors && AllStopped(BallTicks(s, n))
    ensures Reopened(Frames(s, n))
    decreases n
  {
    var t := BallTicks(s, 1);
    if AllStopped(t) {
      SettleReopensAiming(t);
      ReopenedStays(SceneUpdate(t), n - 1);
    } else {
      assert SceneUpdate(t) == t;
      OneMoreTick(s, n - 1);
      ClosedFramesReopen(t, n - 1);
    }
  }

  /** In every reachable scene where everything has stopped, pressing the
      shown launch button and letting the engine run `LaunchSettleTicks`
      frames, each a friction tick of every ball followed by the settle
      check, re-opens aiming with every player frozen and its vector cleared. */
  lemma ReachableLaunchSettles(s: SceneState)
    requires Sane(s) && AllStopped(s) && s.hud.launchVisible
    ensures Reopened(Run(s, [LaunchPress] + EngineFrames(LaunchSettleTicks)))
  {
    assert VectorsBounded(s.left) by {
      forall i | 0 <= i < |s.left| ensures LengthSq(s.left[i].storedVector) <= MaximumLength * MaximumLength {
        assert BallSane(s.left[i]);
      }
    }
    assert VectorsBounded(s.right) by {
      forall i | 0 <= i < |s.right| ensures LengthSq(s.right[i].storedVector) <= MaximumLength * MaximumLength {
        assert BallSane(s.right[i]);
      }
    }
    LaunchSettlesAndReopens(s);
    var l := LaunchPressed(s);
    LaunchPressedEffects(s);
    var es := [LaunchPress] + EngineFrames(LaunchSettleTicks);
    assert es[0] == LaunchPress && es[1..] == EngineFrames(LaunchSettleTicks);
    assert Run(s, es) == Run(l, EngineFrames(LaunchSettleTicks));
    EngineFramesRun(l, LaunchSettleTicks);
    ClosedFramesReopen(l, LaunchSettleTicks);
  }

  /** Running two event sequences one after the other. */
  lemma {:induction false} RunAppend(s: SceneState, a: seq<Event>, b: seq<Event>)
    ensures Run(s, a + b) == Run(Run(s, a), b)
    decreases |a|
  {
    if a == [] {
      assert a + b == b;
    } else {
      assert (a + b)[0] == a[0] && (a + b)[1..] == a[1..] + b;
      RunAppend(Step(s, a[0]), a[1..], b);
    }
  }

  /** Only a goal and the reset button touch the scores. */
  lemma ScoresChangeOnlyOnGoalOrRestart(s: SceneState, e: Event)
    requires !e.GoalOverlap? && !e.RestartPress?
    ensures Step(s, e).vars.leftScore == s.vars.leftScore
    ensures Step(s, e).vars.rightScore == s.vars.rightScore
  {
    match e
    case TimerFired =>
      TimerTickEffects(s);
      if !s.vars.timerPaused && s.vars.gameTime - 1 <= 0 {
        var t := OneSecondLess(s);
        GameEndedEffects(t);
        ResultShownEffects(t, EndGameWinner(t.vars.leftScore, t.vars.rightScore));
      }
    case PauseOver =>
      if s.vars.isResetting {
        FinishPauseEffects(s);
        var t := s.(vars := s.vars.(isResetting := false, timerPaused := false));
        if s.vars.leftScore == s.vars.winningScore {
          ResultShownEffects(t.(vars := t.vars.(winner := Some(LeftTeam))), Some(LeftTeam));
        } else if s.vars.rightScore == s.vars.winningScore {
          ResultShownEffects(t.(vars := t.vars.(winner := Some(RightTeam))), Some(RightTeam));
        } else {
          RoundResetEffects(t);
        }
      }
    case LaunchPress =>
      LaunchPressedEffects(s);
    case Frame =>
      SceneUpdateEffects(s);
      NewShotEnabledEffects(s);
    case PhysicsTick =>
      BallTicksEffects(s, 1);
    case Press(who, pointer) =>
    case Drag(who, pointer, k) =>
    case Release(who) =>
      if ValidRef(s, who) {
        ReleasedEffects(s, who);
        var b := BallOf(s, who);
        if Aiming(b) {
          VectorDrawnEffects(WithBall(s, who, PointerUp(b)));
        }
      }
  }

  /** Without the reset button, scores only grow: each goal adds to one of
      them and nothing else takes anything away. */
  lemma {:induction false} ScoresNeverDropWithoutRestart(s: SceneState, es: seq<Event>)
    requires forall i :: 0 <= i < |es| ==> !es[i].RestartPress?
    ensures Run(s, es).vars.leftScore >= s.vars.leftScore
    ensures Run(s, es).vars.rightScore >= s.vars.rightScore
    decreases |es|
  {
    if es != [] {
      var t := Step(s, es[0]);
      if es[0].GoalOverlap? {
        GoalScoredEffects(s, es[0].zone);
      } else {
        ScoresChangeOnlyOnGoalOrRestart(s, es[0]);
      }
      assert forall i :: 0 <= i < |es[1..]| ==> !es[1..][i].RestartPress?;
      ScoresNeverDropWithoutRestart(t, es[1..]);
    }
  }
}
