/** The game scene of the two-team slingshot game: the countdown, team
    readiness, the shared launch, goal adjudication with its re-entrancy guard,
    the pause after a goal that either ends the match or starts a new round,
    the settle check that re-opens aiming, and the full restart.

    `SceneState` and the functions on it say what each handler does to the
    scene; `class GameScene` holds the same state in fields and references to
    its `Ball` objects, and each of its methods is proved to perform the
    matching function. */
module Scene {
  import opened Geometry
  import opened Motion
  import opened Balls
  import opened JsText

  datatype Option<T> = None | Some(value: T)

  /** The two goal zones. A ball in the left goal is a point for the right team. */
  datatype GoalZone = LeftGoal | RightGoal

  const LeftTeam: string := "Player 1"
  const RightTeam: string := "Player 2"
  const ReadyLabel: string := "Ready!"
  const NotReadyLabel: string := "Not Ready"
  const DrawLabel: string := "Draw!"
  const WinsSuffix: string := " Wins!"

  const PlayersPerTeam: nat := 3
  const WinningScore: int := 10
  /** Length of a match in seconds. */
  const GameDuration: int := 180
  /** The target must be faster than this for a goal to count. */
  const GoalSpeed: real := 5.0
  /** Every ball slower than this counts as stopped. */
  const SettleSpeed: real := 5.0
  /** Velocity factor applied once to every player when a goal is scored. */
  const GoalDeceleration: real := 0.95

  /** The scene's own variables. `timerRunning` stands for the countdown's
      timer event being live. */
  datatype SceneVars = SceneVars(
    leftScore: int, rightScore: int, winningScore: int, gameTime: int,
    canDrawNewVectors: bool, isResetting: bool, timerPaused: bool, timerRunning: bool,
    playersWithVectors: int, winner: Option<string>)

  /** One result text object added by `resultScreen`, and whether it is shown. */
  datatype Banner = Banner(text: string, visible: bool)

  /** What the scene's display objects show: the launch button, the two
      readiness labels, the result texts added so far (oldest first; the
      scene's `resultText` field refers to the last), the reset button and
      the timer text. */
  datatype Hud = Hud(
    launchVisible: bool, leftReady: string, rightReady: string,
    results: seq<Banner>, resetVisible: bool, timerShows: int)

  /** Everything the scene's handlers read or write: the states of its balls,
      its own variables and what its display shows. `vars.timerRunning` says
      whether the countdown's repeating timer is live; `hud.results` are the
      result texts on the display, each shown or hidden; `hud.leftReady` and `hud.rightReady`
      are the texts of the two readiness indicators; the timer text reads
      `FormatTime(hud.timerShows)`. */
  datatype SceneState = SceneState(
    left: seq<BallState>,
    right: seq<BallState>,
    target: BallState,
    vars: SceneVars,
    hud: Hud)

  /** Applies `f` to every ball of a team. */
  function MapBalls(bs: seq<BallState>, f: BallState -> BallState): (r: seq<BallState>)
    ensures |r| == |bs|
    ensures forall i :: 0 <= i < |bs| ==> r[i] == f(bs[i])
  {
    seq(|bs|, i requires 0 <= i < |bs| => f(bs[i]))
  }

  function StartTeam(positions: seq<Vec>): (team: seq<BallState>)
    ensures |team| == |positions|
    ensures forall i :: 0 <= i < |positions| ==> team[i] == Initial(positions[i])
  {
    seq(|positions|, i requires 0 <= i < |positions| => Initial(positions[i]))
  }

  /** The scene once it is created: both teams frozen at their positions, the
      target in the centre and movable but not drawable, the countdown running
      at three minutes, and aiming still closed until the first settle check. */
  function Start(leftPositions: seq<Vec>, rightPositions: seq<Vec>, center: Vec): SceneState
  {
    SceneState(StartTeam(leftPositions), StartTeam(rightPositions),
               Initial(center).(canDraw := false, immovable := false),
               SceneVars(0, 0, WinningScore, GameDuration, false, false, false, true, 0, None),
               Hud(false, NotReadyLabel, NotReadyLabel, [], false, GameDuration))
  }

  /** The scene as created. */
  lemma StartEffects(leftPositions: seq<Vec>, rightPositions: seq<Vec>, center: Vec)
    ensures var s := Start(leftPositions, rightPositions, center);
      |s.left| == |leftPositions| && |s.right| == |rightPositions|
    ensures var s := Start(leftPositions, rightPositions, center);
      s.vars.leftScore == 0 && s.vars.rightScore == 0 && s.vars.gameTime == GameDuration
    ensures var s := Start(leftPositions, rightPositions, center);
      !s.vars.canDrawNewVectors && !s.vars.isResetting && !s.vars.timerPaused && s.vars.timerRunning
    ensures var s := Start(leftPositions, rightPositions, center);
      s.vars.winner == None && s.hud.results == [] && !s.hud.launchVisible && !s.hud.resetVisible
    ensures var s := Start(leftPositions, rightPositions, center);
      s.target.position == center && !s.target.immovable && !s.target.canDraw
  {
  }

  // ------------------------------------------------------------- countdown

  /** `formatTime`: minutes and seconds, each padded to two places, with the
      JavaScript meaning of `Math.floor`, `%`, `toString` and `padStart` on
      every integer, negative ones included. */
  function FormatTime(seconds: int): (t: string)
    ensures |t| >= 5
  {
    PadStart2(IntToString(FloorDiv(seconds, 60))) + ":" + PadStart2(IntToString(Rem(seconds, 60)))
  }

  /** On a non-negative count the formatter is plain floor division and
      remainder, each written in decimal and padded to two places. */
  lemma FormatTimeNonNegative(seconds: int)
    requires seconds >= 0
    ensures FormatTime(seconds)
         == PadStart2(NatToString(seconds / 60)) + ":" + PadStart2(NatToString(seconds % 60))
  {
  }

  /** Three minutes read "03:00". */
  lemma FormatTimeThreeMinutes()
    ensures FormatTime(180) == "03:00"
  {
    FormatTimeNonNegative(180);
    ClockText(3, 0);
    assert [DigitChar(0), DigitChar(3), ':', DigitChar(0), DigitChar(0)] == "03:00";
  }

  /** A negative count is printed with JavaScript's signs: -1 reads "-1:-1". */
  lemma FormatTimeMinusOne()
    ensures FormatTime(-1) == "-1:-1"
  {
    assert FloorDiv(-1, 60) == -1;
    assert Rem(-1, 60) == -1;
    assert IntToString(-1) == "-1";
  }

  /** Below 100 minutes the text is `MM:SS`, and reading the two fields back
      as decimal numbers gives the count of seconds again. */
  lemma FormatTimeRoundTrip(seconds: int)
    requires 0 <= seconds < 6000
    ensures var t := FormatTime(seconds);
      && |t| == 5 && t[2] == ':'
      && IsDigits(t[..2]) && IsDigits(t[3..])
      && DecimalValue(t[..2]) * 60 + DecimalValue(t[3..]) == seconds
  {
    FormatTimeDigits(seconds);
    ClockFieldsRead(FormatTime(seconds), seconds / 60, seconds % 60);
  }

  /** The two fields of a clock text read back as the numbers written. */
  lemma ClockFieldsRead(t: string, m: nat, r: nat)
    requires m < 100 && r < 100
    requires t == [DigitChar(m / 10), DigitChar(m % 10), ':', DigitChar(r / 10), DigitChar(r % 10)]
    ensures |t| == 5 && t[2] == ':'
    ensures IsDigits(t[..2]) && IsDigits(t[3..])
    ensures DecimalValue(t[..2]) == m && DecimalValue(t[3..]) == r
  {
    assert t[..2] == [DigitChar(m / 10), DigitChar(m % 10)];
    assert t[3..] == [DigitChar(r / 10), DigitChar(r % 10)];
    TwoDigitValue(m);
    TwoDigitValue(r);
  }

  /** Below 100 minutes the text is the two digits of the minutes, a colon and
      the two digits of the seconds. */
  lemma FormatTimeDigits(seconds: int)
    requires 0 <= seconds < 6000
    ensures FormatTime(seconds)
         == [DigitChar(seconds / 60 / 10), DigitChar(seconds / 60 % 10), ':',
             DigitChar(seconds % 60 / 10), DigitChar(seconds % 60 % 10)]
  {
    FormatTimeNonNegative(seconds);
    ClockText(seconds / 60, seconds % 60);
  }

  /** Two fields below 100, each padded to two places, around a colon. */
  lemma ClockText(m: nat, r: nat)
    requires m < 100 && r < 100
    ensures PadStart2(NatToString(m)) + ":" + PadStart2(NatToString(r))
         == [DigitChar(m / 10), DigitChar(m % 10), ':', DigitChar(r / 10), DigitChar(r % 10)]
  {
    var a, b := PadStart2(NatToString(m)), PadStart2(NatToString(r));
    TwoDigits(m);
    TwoDigits(r);
    JoinFields(a, b);
  }

  /** Two two-character fields joined by a colon. */
  lemma JoinFields(a: string, b: string)
    requires |a| == 2 && |b| == 2
    ensures a + ":" + b == [a[0], a[1], ':', b[0], b[1]]
  {
  }

  lemma TwoDigitValue(n: nat)
    requires n < 100
    ensures DecimalValue([DigitChar(n / 10), DigitChar(n % 10)]) == n
  {
    var s := [DigitChar(n / 10), DigitChar(n % 10)];
    assert s[..1] == [DigitChar(n / 10)];
    assert s[..1][..0] == [];
    assert DecimalValue(s[..1]) == n / 10;
    assert DecimalValue(s) == DecimalValue(s[..1]) * 10 + DigitValue(s[1]);
  }

  /** For any non-negative count the last field is a valid seconds value:
      a digit from 0 to 5 then a digit from 0 to 9, after a colon. */
  lemma SecondsFieldInRange(seconds: int)
    requires seconds >= 0
    ensures var t := FormatTime(seconds);
      && t[|t| - 3] == ':'
      && '0' <= t[|t| - 2] <= '5'
      && '0' <= t[|t| - 1] <= '9'
  {
    FormatTimeNonNegative(seconds);
    TwoDigits(seconds % 60);
  }

  /** `endGame`'s choice of winner, a value local to `endGame`. */
  function EndGameWinner(leftScore: int, rightScore: int): (w: Option<string>)
    ensures w == Some(LeftTeam) <==> leftScore > rightScore
    ensures w == Some(RightTeam) <==> rightScore > leftScore
    ensures w == None <==> leftScore == rightScore
  {
    if leftScore > rightScore then Some(LeftTeam)
    else if rightScore > leftScore then Some(RightTeam)
    else None
  }

  function ResultText(team: Option<string>): string {
    if team.Some? then team.value + WinsSuffix else DrawLabel
  }

  /** The state part of `resultScreen`: the timer stops, aiming closes, a new
      result text naming the team (or a draw) is added on top of whatever is
      already shown, and the restart button shows. */
  function ResultShown(s: SceneState, team: Option<string>): SceneState
  {
    s.(vars := s.vars.(timerRunning := false, canDrawNewVectors := false),
       hud := s.hud.(results := s.hud.results + [Banner(ResultText(team), true)], resetVisible := true))
  }

  /** What the result screen does to the scene: every earlier result text is
      left as it was, shown or hidden, and one more, shown, names the result. */
  lemma ResultShownEffects(s: SceneState, team: Option<string>)
    ensures var r := ResultShown(s, team);
      !r.vars.timerRunning && !r.vars.canDrawNewVectors && r.hud.resetVisible
    ensures var r := ResultShown(s, team);
      && |r.hud.results| == |s.hud.results| + 1
      && r.hud.results[|s.hud.results|] == Banner(ResultText(team), true)
      && forall i :: 0 <= i < |s.hud.results| ==> r.hud.results[i] == s.hud.results[i]
    ensures var r := ResultShown(s, team);
      r.left == s.left && r.right == s.right && r.target == s.target
    ensures var r := ResultShown(s, team);
      r.vars.(timerRunning := s.vars.timerRunning, canDrawNewVectors := s.vars.canDrawNewVectors) == s.vars
    ensures var r := ResultShown(s, team);
      r.hud.(results := s.hud.results, resetVisible := s.hud.resetVisible) == s.hud
  {
  }

  /** `endGame`: aiming closes, the timer is removed and the result is shown
      for the better score or a draw. The scene's `winner` field is not set. */
  function GameEnded(s: SceneState): SceneState
  {
    ResultShown(s.(vars := s.vars.(canDrawNewVectors := false, timerRunning := false)),
                EndGameWinner(s.vars.leftScore, s.vars.rightScore))
  }

  /** The end of the match shows the result for the better score and leaves the winner field alone. */
  lemma GameEndedEffects(s: SceneState)
    ensures var r := GameEnded(s);
      r == ResultShown(s, EndGameWinner(s.vars.leftScore, s.vars.rightScore))
    ensures var r := GameEnded(s);
      r.vars.winner == s.vars.winner
  {
  }

  /** One second off the clock, and the timer text showing the new count. */
  function OneSecondLess(s: SceneState): SceneState {
    s.(vars := s.vars.(gameTime := s.vars.gameTime - 1), hud := s.hud.(timerShows := s.vars.gameTime - 1))
  }

  /** `updateTimer`: nothing while paused; otherwise one second less, the
      timer text shows it, and at zero or below the match ends. */
  function TimerTick(s: SceneState): SceneState
  {
    if s.vars.timerPaused then s
    else
      var t := OneSecondLess(s);
      if t.vars.gameTime <= 0 then GameEnded(t) else t
  }

  /** What one timer callback does, paused or not. */
  lemma TimerTickEffects(s: SceneState)
    ensures var r := TimerTick(s);
      s.vars.timerPaused ==> r == s
    ensures var r := TimerTick(s);
      !s.vars.timerPaused ==> r.vars.gameTime == s.vars.gameTime - 1 && r.hud.timerShows == s.vars.gameTime - 1
    ensures var r := TimerTick(s);
      !s.vars.timerPaused && s.vars.gameTime - 1 <= 0 ==> !r.vars.canDrawNewVectors && !r.vars.timerRunning
    ensures var r := TimerTick(s);
      !s.vars.timerPaused && s.vars.gameTime - 1 <= 0 ==>
      r.hud.results == s.hud.results + [Banner(ResultText(EndGameWinner(s.vars.leftScore, s.vars.rightScore)), true)]
    ensures var r := TimerTick(s);
      !s.vars.timerPaused && s.vars.gameTime - 1 > 0 ==>
      r == OneSecondLess(s)
  {
  }

  /** `n` calls of the timer callback. */
  function Ticks(s: SceneState, n: nat): SceneState
    decreases n
  {
    if n == 0 then s else Ticks(TimerTick(s), n - 1)
  }

  /** Unpaused, the countdown ends the match exactly when the clock reaches
      zero: after `gameTime` seconds the time is 0, aiming is closed and the
      result for the score at that moment is shown. */
  lemma {:induction false} CountdownEndsMatch(s: SceneState, n: nat)
    requires !s.vars.timerPaused && n > 0 && s.vars.gameTime == n
    ensures Ticks(s, n).vars.gameTime == 0
    ensures !Ticks(s, n).vars.canDrawNewVectors && !Ticks(s, n).vars.timerRunning
    ensures Ticks(s, n).hud.results
         == s.hud.results + [Banner(ResultText(EndGameWinner(s.vars.leftScore, s.vars.rightScore)), true)]
    decreases n
  {
    if n > 1 {
      var t := TimerTick(s);
      assert t == OneSecondLess(s);
      CountdownEndsMatch(t, n - 1);
    }
  }

  /** Before the clock reaches zero the countdown changes nothing but the time
      and its text. */
  lemma {:induction false} CountdownBeforeEnd(s: SceneState, k: nat)
    requires !s.vars.timerPaused && k < s.vars.gameTime
    ensures Ticks(s, k).vars.gameTime == s.vars.gameTime - k
    ensures k > 0 ==> Ticks(s, k).hud.timerShows == s.vars.gameTime - k
    ensures var r := Ticks(s, k);
      && r.left == s.left && r.right == s.right && r.target == s.target
      && r.vars.(gameTime := s.vars.gameTime) == s.vars && r.hud.(timerShows := s.hud.timerShows) == s.hud
    decreases k
  {
    if k > 0 {
      var t := TimerTick(s);
      assert t == OneSecondLess(s);
      CountdownBeforeEnd(t, k - 1);
    }
  }

  // ------------------------------------------------------------- readiness

  predicate HasVector(b: BallState) {
    b.storedVector != Zero
  }

  /** A team is ready when every member has committed a non-zero vector. */
  predicate TeamReady(team: seq<BallState>) {
    forall i :: 0 <= i < |team| ==> HasVector(team[i])
  }

  function ReadinessText(ready: bool): (t: string)
    ensures t == ReadyLabel <==> ready
  {
    if ready then ReadyLabel else NotReadyLabel
  }

  /** `onPlayerVectorDrawn`: while aiming is open, one more player counts as
      having a vector, each indicator says whether its team is ready, and the
      launch button appears once both teams are. It never hides the button. */
  function VectorDrawn(s: SceneState): SceneState
  {
    if !s.vars.canDrawNewVectors then s
    else
      var leftReady := TeamReady(s.left);
      var rightReady := TeamReady(s.right);
      s.(vars := s.vars.(playersWithVectors := s.vars.playersWithVectors + 1),
         hud := s.hud.(leftReady := ReadinessText(leftReady),
                       rightReady := ReadinessText(rightReady),
                       launchVisible := s.hud.launchVisible || (leftReady && rightReady)))
  }

  /** What a `vectorDrawn` report does, in each case. */
  lemma VectorDrawnEffects(s: SceneState)
    ensures var r := VectorDrawn(s);
      !s.vars.canDrawNewVectors ==> r == s
    ensures var r := VectorDrawn(s);
      s.vars.canDrawNewVectors ==> r.vars.playersWithVectors == s.vars.playersWithVectors + 1
    ensures var r := VectorDrawn(s);
      s.vars.canDrawNewVectors ==>
      (r.hud.leftReady == ReadyLabel <==> TeamReady(s.left)) && (r.hud.rightReady == ReadyLabel <==> TeamReady(s.right))
    ensures var r := VectorDrawn(s);
      s.vars.canDrawNewVectors ==>
      (r.hud.launchVisible <==> s.hud.launchVisible || (TeamReady(s.left) && TeamReady(s.right)))
    ensures var r := VectorDrawn(s);
      s.hud.launchVisible ==> r.hud.launchVisible
    ensures var r := VectorDrawn(s);
      r.left == s.left && r.right == s.right && r.target == s.target
  {
  }

  /** Readiness is decided member by member: replacing one member makes the
      team ready exactly when the new member and all the others hold vectors. */
  lemma ReadinessIsPerMember(team: seq<BallState>, i: int, b: BallState)
    requires 0 <= i < |team|
    ensures TeamReady(team[i := b])
        <==> HasVector(b) && forall j :: 0 <= j < |team| && j != i ==> HasVector(team[j])
  {
    var t := team[i := b];
    if HasVector(b) && forall j :: 0 <= j < |team| && j != i ==> HasVector(team[j]) {
      forall j | 0 <= j < |t| ensures HasVector(t[j]) {
        if j != i {
          assert t[j] == team[j];
        }
      }
    }
    if TeamReady(t) {
      assert HasVector(t[i]);
      forall j | 0 <= j < |team| && j != i ensures HasVector(team[j]) {
        assert t[j] == team[j];
      }
    }
  }

  /** A button left visible by an earlier report stays visible even after a
      release makes a team not ready again. */
  lemma LaunchButtonOutlivesReadiness(s: SceneState)
    requires s.vars.canDrawNewVectors && s.hud.launchVisible && !TeamReady(s.left)
    ensures VectorDrawn(s).hud.launchVisible && VectorDrawn(s).hud.leftReady == NotReadyLabel
  {
  }

  // ---------------------------------------------------------------- launch

  /** `onLaunchButtonPressed`: aiming closes, every player of both teams (but
      not the target) is launched with its stored vector, the button hides
      and both indicators read "Not Ready". */
  function LaunchPressed(s: SceneState): SceneState
  {
    s.(left := MapBalls(s.left, Launch), right := MapBalls(s.right, Launch),
       vars := s.vars.(canDrawNewVectors := false),
       hud := s.hud.(launchVisible := false, leftReady := NotReadyLabel, rightReady := NotReadyLabel))
  }

  /** What the launch button does. */
  lemma LaunchPressedEffects(s: SceneState)
    ensures var r := LaunchPressed(s);
      !r.vars.canDrawNewVectors && !r.hud.launchVisible
    ensures var r := LaunchPressed(s);
      r.hud.leftReady == NotReadyLabel && r.hud.rightReady == NotReadyLabel
    ensures var r := LaunchPressed(s);
      r.left == MapBalls(s.left, Launch) && r.right == MapBalls(s.right, Launch)
    ensures var r := LaunchPressed(s);
      r.target == s.target
    ensures var r := LaunchPressed(s);
      r.vars == s.vars.(canDrawNewVectors := false)
    ensures var r := LaunchPressed(s);
      r.hud.(launchVisible := s.hud.launchVisible, leftReady := s.hud.leftReady,
                   rightReady := s.hud.rightReady) == s.hud
  {
  }

  /** When both teams are ready, the launch sets every player moving away from
      its stored vector at five times its length, and none of them can be
      aimed until drawing is enabled again. */
  lemma ReadyTeamsAllLaunch(s: SceneState)
    requires TeamReady(s.left) && TeamReady(s.right)
    ensures var r := LaunchPressed(s);
      && (forall i :: 0 <= i < |r.left| ==>
            !r.left[i].immovable && !r.left[i].canDraw
            && r.left[i].velocity == Vec(-s.left[i].storedVector.x * 5.0, -s.left[i].storedVector.y * 5.0))
      && (forall i :: 0 <= i < |r.right| ==>
            !r.right[i].immovable && !r.right[i].canDraw
            && r.right[i].velocity == Vec(-s.right[i].storedVector.x * 5.0, -s.right[i].storedVector.y * 5.0))
  {
  }

  /** A player without a vector is not touched by the launch. */
  lemma UnreadyPlayerStaysPut(s: SceneState, i: int)
    requires 0 <= i < |s.left| && !HasVector(s.left[i])
    ensures LaunchPressed(s).left[i] == s.left[i]
  {
  }

  // ------------------------------------------------------------------ goals

  /** `objectDeceleration`: the velocity is scaled by `d`; if both scaled
      components are below 1 in size the ball stops and is frozen. The test
      reads the velocity after scaling. */
  function Decelerate(b: BallState, d: real): BallState
  {
    var v := Scale(b.velocity, d);
    if Abs(v.x) < 1.0 && Abs(v.y) < 1.0 then b.(velocity := Zero, immovable := true)
    else b.(velocity := v)
  }

  /** Deceleration either snaps a slow ball to rest and freezes it, or only scales its velocity. */
  lemma DecelerateEffects(b: BallState, d: real)
    ensures var r := Decelerate(b, d);
      var v := Scale(b.velocity, d);
      && (Abs(v.x) < 1.0 && Abs(v.y) < 1.0 ==> r.velocity == Zero && r.immovable)
      && (!(Abs(v.x) < 1.0 && Abs(v.y) < 1.0) ==> r.velocity == v && r.immovable == b.immovable)
    ensures var r := Decelerate(b, d);
      r.(velocity := b.velocity, immovable := b.immovable) == b
  {
  }

  /** Because the snap test sees the scaled velocity, a ball at (1.02, 0)
      is stopped by one deceleration at 0.95, though its own x speed is above 1. */
  lemma DecelerationTestsScaledVelocity(b: BallState)
    requires b.velocity == Vec(1.02, 0.0)
    ensures Decelerate(b, GoalDeceleration).velocity == Zero
    ensures Decelerate(b, GoalDeceleration).immovable
  {
  }

  /** Deceleration by a factor in [0, 1] never speeds a ball up. */
  lemma DecelerationSlows(b: BallState, d: real)
    requires 0.0 <= d <= 1.0
    ensures LengthSq(Decelerate(b, d).velocity) <= LengthSq(b.velocity)
  {
    var v := Scale(b.velocity, d);
    if Abs(v.x) < 1.0 && Abs(v.y) < 1.0 {
      assert Decelerate(b, d).velocity == Zero;
      assert LengthSq(Zero) == 0.0;
    } else {
      assert Decelerate(b, d).velocity == v;
      ScaleShrinks(b.velocity, d);
    }
  }

  /** A goal counts only when the target is faster than `GoalSpeed` and no
      other goal is being handled. */
  predicate GoalCounts(s: SceneState) {
    LengthSq(s.target.velocity) > GoalSpeed * GoalSpeed && !s.vars.isResetting
  }

  function Decelerated(b: BallState): BallState {
    Decelerate(b, GoalDeceleration)
  }

  /** `onGoalScored`: a counted goal starts the pause (and so pauses the
      timer), slows every player once, stops and freezes the target and gives
      the point to the team that did not defend that goal. */
  function GoalScored(s: SceneState, zone: GoalZone): SceneState
  {
    if !GoalCounts(s) then s
    else
      SceneState(MapBalls(s.left, Decelerated), MapBalls(s.right, Decelerated),
                 s.target.(velocity := Zero, immovable := true), GoalVars(s.vars, zone), s.hud)
  }

  /** The variables after a counted goal: both pauses set and the point given. */
  function GoalVars(v: SceneVars, zone: GoalZone): SceneVars {
    var p := v.(isResetting := true, timerPaused := true);
    if zone == LeftGoal then p.(rightScore := p.rightScore + 1) else p.(leftScore := p.leftScore + 1)
  }

  /** What an overlap report does, counted or not. */
  lemma GoalScoredEffects(s: SceneState, zone: GoalZone)
    ensures var r := GoalScored(s, zone);
      !GoalCounts(s) ==> r == s
    ensures var r := GoalScored(s, zone);
      GoalCounts(s) ==> r.vars.isResetting && r.vars.timerPaused
    ensures var r := GoalScored(s, zone);
      GoalCounts(s) ==> r.target == s.target.(velocity := Zero, immovable := true)
    ensures var r := GoalScored(s, zone);
      GoalCounts(s) ==> r.left == MapBalls(s.left, Decelerated) && r.right == MapBalls(s.right, Decelerated)
    ensures var r := GoalScored(s, zone);
      GoalCounts(s) && zone == LeftGoal ==> r.vars.rightScore == s.vars.rightScore + 1 && r.vars.leftScore == s.vars.leftScore
    ensures var r := GoalScored(s, zone);
      GoalCounts(s) && zone == RightGoal ==> r.vars.leftScore == s.vars.leftScore + 1 && r.vars.rightScore == s.vars.rightScore
  {
  }

  /** A counted goal raises exactly one score, by exactly one. Nothing but the
      pause flags, the balls and that score changes. */
  lemma GoalRaisesOneScore(s: SceneState, zone: GoalZone)
    requires GoalCounts(s)
    ensures var r := GoalScored(s, zone);
      && r.vars.leftScore + r.vars.rightScore == s.vars.leftScore + s.vars.rightScore + 1
      && (r.vars.leftScore == s.vars.leftScore) != (r.vars.rightScore == s.vars.rightScore)
      && r.hud == s.hud
      && r.vars.(isResetting := s.vars.isResetting, timerPaused := s.vars.timerPaused,
                 leftScore := s.vars.leftScore, rightScore := s.vars.rightScore) == s.vars
  {
  }

  /** The guard makes goal handling re-entrant: once a goal is counted, more
      overlap reports before the pause ends change nothing. */
  lemma SecondGoalIgnored(s: SceneState, first: GoalZone, second: GoalZone)
    requires GoalCounts(s)
    ensures GoalScored(GoalScored(s, first), second) == GoalScored(s, first)
  {
  }

  /** The countdown stands still during a goal pause. */
  lemma GoalPausesCountdown(s: SceneState, zone: GoalZone)
    requires GoalCounts(s)
    ensures TimerTick(GoalScored(s, zone)) == GoalScored(s, zone)
  {
  }

  /** The goal pause freezes the target, so a target whose drawing flag is set
      (as it is after every round reset) can be aimed during the pause. */
  lemma TargetAimableDuringPause(s: SceneState, zone: GoalZone, pointer: Vec)
    requires GoalCounts(s) && s.target.canDraw
    ensures Aiming(PointerDown(GoalScored(s, zone).target, pointer))
  {
  }

  // ------------------------------------------------------------ after a goal

  predicate AtStart(b: BallState) {
    && b.position == b.initialPosition && b.velocity == Zero && b.immovable && b.canDraw
    && b.vector == Zero && b.storedVector == Zero
  }

  /** A player's part of `resetRound`: `reset`, then drawing allowed. */
  function PlayerReset(b: BallState): BallState {
    ResetToStart(b).(canDraw := true)
  }

  /** The target's part of `resetRound`: `reset`, then movable again. */
  function TargetReset(b: BallState): BallState {
    ResetToStart(b).(immovable := false)
  }

  /** `resetRound`: every player back at its start, frozen, with no vectors and
      free to aim; the target back at its start at rest but movable; aiming
      open with no vectors counted and the launch button hidden. */
  function RoundReset(s: SceneState): SceneState
  {
    s.(left := MapBalls(s.left, PlayerReset), right := MapBalls(s.right, PlayerReset),
       target := TargetReset(s.target),
       vars := s.vars.(canDrawNewVectors := true, playersWithVectors := 0),
       hud := s.hud.(launchVisible := false))
  }

  /** What a round reset leaves behind. */
  lemma RoundResetEffects(s: SceneState)
    ensures var r := RoundReset(s);
      |r.left| == |s.left| && |r.right| == |s.right|
    ensures var r := RoundReset(s);
      forall i :: 0 <= i < |r.left| ==> AtStart(r.left[i]) && r.left[i].initialPosition == s.left[i].initialPosition
    ensures var r := RoundReset(s);
      forall i :: 0 <= i < |r.right| ==> AtStart(r.right[i]) && r.right[i].initialPosition == s.right[i].initialPosition
    ensures var r := RoundReset(s);
      r.target.position == s.target.initialPosition && r.target.velocity == Zero
    ensures var r := RoundReset(s);
      !r.target.immovable && r.target.canDraw
    ensures var r := RoundReset(s);
      r.vars.canDrawNewVectors && r.vars.playersWithVectors == 0 && !r.hud.launchVisible
    ensures var r := RoundReset(s);
      && r.vars.(canDrawNewVectors := s.vars.canDrawNewVectors, playersWithVectors := s.vars.playersWithVectors) == s.vars
      && r.hud.(launchVisible := s.hud.launchVisible) == s.hud
  {
  }

  lemma RoundResetIdempotent(s: SceneState)
    ensures RoundReset(RoundReset(s)) == RoundReset(s)
  {
    var r := RoundReset(s);
    assert MapBalls(r.left, PlayerReset) == r.left;
    assert MapBalls(r.right, PlayerReset) == r.right;
  }

  /** The delayed callback of a goal: the pause ends; a team that has reached
      the winning score (the left team checked first) is recorded as the
      winner and the result is shown; otherwise a new round starts. */
  function FinishPause(s: SceneState): SceneState
  {
    var t := s.(vars := s.vars.(isResetting := false, timerPaused := false));
    if t.vars.leftScore == t.vars.winningScore then
      ResultShown(t.(vars := t.vars.(winner := Some(LeftTeam))), Some(LeftTeam))
    else if t.vars.rightScore == t.vars.winningScore then
      ResultShown(t.(vars := t.vars.(winner := Some(RightTeam))), Some(RightTeam))
    else RoundReset(t)
  }

  /** What the end of a goal pause does, in each of its three cases. */
  lemma FinishPauseEffects(s: SceneState)
    ensures var r := FinishPause(s);
      !r.vars.isResetting && !r.vars.timerPaused
    ensures var r := FinishPause(s);
      s.vars.leftScore == s.vars.winningScore ==>
      r.vars.winner == Some(LeftTeam) && r.hud.results == s.hud.results + [Banner(LeftTeam + WinsSuffix, true)] && !r.vars.canDrawNewVectors && !r.vars.timerRunning
    ensures var r := FinishPause(s);
      s.vars.leftScore != s.vars.winningScore && s.vars.rightScore == s.vars.winningScore ==>
      r.vars.winner == Some(RightTeam) && r.hud.results == s.hud.results + [Banner(RightTeam + WinsSuffix, true)] && !r.vars.canDrawNewVectors && !r.vars.timerRunning
    ensures var r := FinishPause(s);
      s.vars.leftScore != s.vars.winningScore && s.vars.rightScore != s.vars.winningScore ==>
      r == RoundReset(s.(vars := s.vars.(isResetting := false, timerPaused := false)))
    ensures var r := FinishPause(s);
      r.vars.leftScore == s.vars.leftScore && r.vars.rightScore == s.vars.rightScore
  {
  }

  /** Should both scores equal the winning score, the left team is the winner. */
  lemma FinishPauseChecksLeftFirst(s: SceneState)
    requires s.vars.leftScore == s.vars.winningScore && s.vars.rightScore == s.vars.winningScore
    ensures FinishPause(s).vars.winner == Some(LeftTeam)
  {
  }

  /** Only the exact winning score ends the match after a goal: a score that
      went past it (possible once aiming has re-opened after a result) starts
      another round. */
  lemma ScorePastWinningStartsRound(s: SceneState)
    requires s.vars.leftScore == s.vars.winningScore + 1 && s.vars.rightScore < s.vars.winningScore
    ensures FinishPause(s).vars.canDrawNewVectors && FinishPause(s).vars.winner == s.vars.winner
  {
  }

  /** The scores zeroed and the restart button hidden: what `resetGame` has
      done when it reaches the result text. */
  function ScoresCleared(s: SceneState): SceneState {
    s.(vars := s.vars.(leftScore := 0, rightScore := 0), hud := s.hud.(resetVisible := false))
  }

  /** The result texts with the last one (the one `resultText` refers to) hidden. */
  function LatestHidden(bs: seq<Banner>): (r: seq<Banner>)
    requires |bs| > 0
    ensures |r| == |bs| && !r[|bs| - 1].visible && r[|bs| - 1].text == bs[|bs| - 1].text
    ensures forall i :: 0 <= i < |bs| - 1 ==> r[i] == bs[i]
  {
    bs[|bs| - 1 := bs[|bs| - 1].(visible := false)]
  }

  /** `resetGame`: both scores back to zero, the restart button hidden, the
      latest result text hidden, a new round, three minutes on the clock and
      the timer started. Older result texts stay as they are, and the timer
      text and the `winner` field are left as they were. Before any result
      screen, `resultText` is still `null`: the handler throws at that point,
      after zeroing the scores and hiding the button. */
  function GameRestarted(s: SceneState): SceneState
  {
    var t := ScoresCleared(s);
    if |t.hud.results| == 0 then t
    else
      var u := RoundReset(t.(hud := t.hud.(results := LatestHidden(t.hud.results))));
      u.(vars := u.vars.(gameTime := GameDuration, timerRunning := true))
  }

  /** What a restart leaves behind, after a result screen and before one. */
  lemma GameRestartedEffects(s: SceneState)
    ensures var r := GameRestarted(s);
      r.vars.leftScore == 0 && r.vars.rightScore == 0 && !r.hud.resetVisible
    ensures var r := GameRestarted(s);
      |s.hud.results| > 0 ==> r.vars.gameTime == GameDuration && r.vars.timerRunning
    ensures var r := GameRestarted(s);
      |s.hud.results| > 0 ==> r.hud.results == LatestHidden(s.hud.results)
    ensures var r := GameRestarted(s);
      |s.hud.results| > 0 ==>
      && r.left == RoundReset(s).left && r.right == RoundReset(s).right && r.target == RoundReset(s).target
      && r.vars.canDrawNewVectors && r.vars.playersWithVectors == 0 && !r.hud.launchVisible
    ensures var r := GameRestarted(s);
      r.vars.winner == s.vars.winner && r.hud.timerShows == s.hud.timerShows
    ensures var r := GameRestarted(s);
      |s.hud.results| == 0 ==> r == ScoresCleared(s)
  {
  }

  /** A second result screen before a restart adds a second result text; the
      restart hides only the second, so the first stays on the display. */
  lemma FirstResultOutlivesRestart(s: SceneState, first: Option<string>, second: Option<string>)
    ensures var r := GameRestarted(ResultShown(ResultShown(s, first), second));
      && |r.hud.results| == |s.hud.results| + 2
      && r.hud.results[|s.hud.results|] == Banner(ResultText(first), true)
      && r.hud.results[|s.hud.results| + 1] == Banner(ResultText(second), false)
  {
    var u := ResultShown(ResultShown(s, first), second);
    ResultShownEffects(s, first);
    ResultShownEffects(ResultShown(s, first), second);
    GameRestartedEffects(u);
  }

  // ------------------------------------------------------------ settle check

  predicate Stopped(b: BallState) {
    LengthSq(b.velocity) < SettleSpeed * SettleSpeed
  }

  /** `allPlayersStopped`: every player of both teams and the target is slower
      than `SettleSpeed`. */
  predicate AllStopped(s: SceneState) {
    && (forall i :: 0 <= i < |s.left| ==> Stopped(s.left[i]))
    && (forall i :: 0 <= i < |s.right| ==> Stopped(s.right[i]))
    && Stopped(s.target)
  }

  /** `enableNewShot`: aiming re-opens with no vectors counted and every player
      frozen with fresh vectors. The target is not touched. */
  function NewShotEnabled(s: SceneState): SceneState
  {
    s.(left := MapBalls(s.left, DrawingEnabled), right := MapBalls(s.right, DrawingEnabled),
       vars := s.vars.(canDrawNewVectors := true, playersWithVectors := 0))
  }

  /** What enabling a new shot does. */
  lemma NewShotEnabledEffects(s: SceneState)
    ensures var r := NewShotEnabled(s);
      r.vars.canDrawNewVectors && r.vars.playersWithVectors == 0
    ensures var r := NewShotEnabled(s);
      r.left == MapBalls(s.left, DrawingEnabled) && r.right == MapBalls(s.right, DrawingEnabled)
    ensures var r := NewShotEnabled(s);
      r.target == s.target && r.hud == s.hud
    ensures var r := NewShotEnabled(s);
      r.vars.(canDrawNewVectors := s.vars.canDrawNewVectors, playersWithVectors := s.vars.playersWithVectors) == s.vars
  {
  }

  lemma NewShotEnabledIdempotent(s: SceneState)
    ensures NewShotEnabled(NewShotEnabled(s)) == NewShotEnabled(s)
  {
    var r := NewShotEnabled(s);
    assert MapBalls(r.left, DrawingEnabled) == r.left;
    assert MapBalls(r.right, DrawingEnabled) == r.right;
  }

  /** After a new shot is enabled no team with a member is ready. */
  lemma NewShotClearsReadiness(s: SceneState)
    ensures TeamReady(NewShotEnabled(s).left) <==> |s.left| == 0
    ensures TeamReady(NewShotEnabled(s).right) <==> |s.right| == 0
  {
    var r := NewShotEnabled(s);
    if |s.left| > 0 {
      assert !HasVector(r.left[0]);
    }
    if |s.right| > 0 {
      assert !HasVector(r.right[0]);
    }
  }

  /** The scene's `update`: once aiming is closed and everything has stopped,
      a new shot is enabled; otherwise nothing happens. */
  function SceneUpdate(s: SceneState): SceneState
  {
    if !s.vars.canDrawNewVectors && AllStopped(s) then NewShotEnabled(s) else s
  }

  /** The settle check in its two cases. */
  lemma SceneUpdateEffects(s: SceneState)
    ensures var r := SceneUpdate(s);
      !s.vars.canDrawNewVectors && AllStopped(s) ==> r == NewShotEnabled(s)
    ensures var r := SceneUpdate(s);
      s.vars.canDrawNewVectors || !AllStopped(s) ==> r == s
  {
  }

  /** Aiming is open after `update` exactly when it was open before or
      everything had stopped. */
  lemma UpdateOpensAimingIff(s: SceneState)
    ensures SceneUpdate(s).vars.canDrawNewVectors <==> s.vars.canDrawNewVectors || AllStopped(s)
  {
  }

  /** The settle check ignores the end of the match: once the balls are still,
      `update` re-opens aiming under a result banner. */
  lemma MatchEndNotSticky(s: SceneState, team: Option<string>)
    requires AllStopped(s)
    ensures var r := SceneUpdate(ResultShown(s, team));
      r.vars.canDrawNewVectors && r.hud.results == s.hud.results + [Banner(ResultText(team), true)] && !r.vars.timerRunning
  {
  }

  /** The settle check ignores a goal pause too: aiming re-opens while the
      pause is still running. */
  lemma SettleDuringGoalPause(s: SceneState)
    requires s.vars.isResetting && !s.vars.canDrawNewVectors && AllStopped(s)
    ensures SceneUpdate(s).vars.canDrawNewVectors && SceneUpdate(s).vars.isResetting
  {
  }

  /** After a settle re-opens aiming, every player is frozen, drawable and
      holds no vector, so neither team is ready until its players aim again. */
  lemma SettleReopensAiming(s: SceneState)
    requires !s.vars.canDrawNewVectors && AllStopped(s)
    ensures var r := SceneUpdate(s);
      && r.vars.canDrawNewVectors && r.vars.playersWithVectors == 0
      && (forall i :: 0 <= i < |r.left| ==> r.left[i].immovable && r.left[i].canDraw && !HasVector(r.left[i]))
      && (forall i :: 0 <= i < |r.right| ==> r.right[i].immovable && r.right[i].canDraw && !HasVector(r.right[i]))
  {
  }

  /** A round reset leaves every ball of the scene stopped. */
  lemma RoundResetStopsEverything(s: SceneState)
    ensures AllStopped(RoundReset(s))
  {
    var r := RoundReset(s);
    assert forall i :: 0 <= i < |r.left| ==> AtStart(r.left[i]);
    assert forall i :: 0 <= i < |r.right| ==> AtStart(r.right[i]);
    AllAtRestStopped(r);
  }

  lemma AllAtRestStopped(s: SceneState)
    requires forall i :: 0 <= i < |s.left| ==> s.left[i].velocity == Zero
    requires forall i :: 0 <= i < |s.right| ==> s.right[i].velocity == Zero
    requires s.target.velocity == Zero
    ensures AllStopped(s)
  {
    RestIsStopped(s.target);
    forall i | 0 <= i < |s.left| ensures Stopped(s.left[i]) {
      RestIsStopped(s.left[i]);
    }
    forall i | 0 <= i < |s.right| ensures Stopped(s.right[i]) {
      RestIsStopped(s.right[i]);
    }
  }

  /** With aiming open after a round reset, the next settle check has nothing to do. */
  lemma UpdateAfterRoundReset(s: SceneState)
    ensures SceneUpdate(RoundReset(s)) == RoundReset(s)
  {
  }

  lemma RestIsStopped(b: BallState)
    requires b.velocity == Zero
    ensures Stopped(b)
  {
    assert LengthSq(Zero) == 0.0;
  }

  // ------------------------------------------------------ launch to settle

  /** `n` frames of every ball's own `update`, with no settle check between. */
  function BallTicks(s: SceneState, n: nat): SceneState
  {
    s.(left := MapBalls(s.left, b => Ticked(b, n)), right := MapBalls(s.right, b => Ticked(b, n)),
       target := Ticked(s.target, n))
  }

  /** Ball frames move the balls and nothing else. */
  lemma BallTicksEffects(s: SceneState, n: nat)
    ensures var r := BallTicks(s, n);
      r.left == MapBalls(s.left, b => Ticked(b, n))
    ensures var r := BallTicks(s, n);
      r.right == MapBalls(s.right, b => Ticked(b, n))
    ensures var r := BallTicks(s, n);
      r.target == Ticked(s.target, n)
    ensures var r := BallTicks(s, n);
      r.(left := s.left, right := s.right, target := s.target) == s
  {
  }

  /** Friction never takes a stopped ball above `SettleSpeed`. */
  lemma TickedStaysStopped(b: BallState, n: nat)
    requires Stopped(b)
    ensures Stopped(Ticked(b, n))
  {
    TickedFollowsFriction(b, n);
    if !b.immovable {
      FrictionTicksSlowDown(b.velocity, n);
    }
  }

  /** A stopped player with a committed vector no longer than `MaximumLength`
      is stopped again `LaunchSettleTicks` frames after the launch. */
  lemma PlayerSettlesAfterLaunch(b: BallState)
    requires Stopped(b) && LengthSq(b.storedVector) <= MaximumLength * MaximumLength
    ensures Stopped(Ticked(Launch(b), LaunchSettleTicks))
  {
    if HasVector(b) {
      LaunchedBallComesToRest(b);
      RestIsStopped(Ticked(Launch(b), LaunchSettleTicks));
    } else {
      TickedStaysStopped(b, LaunchSettleTicks);
    }
  }

  predicate VectorsBounded(team: seq<BallState>) {
    forall i :: 0 <= i < |team| ==> LengthSq(team[i].storedVector) <= MaximumLength * MaximumLength
  }

  /** The launch round trip: from a still scene, launch; left to friction,
      every ball is still again after `LaunchSettleTicks` frames, and the
      settle check then re-opens aiming with every stored vector cleared. */
  lemma LaunchSettlesAndReopens(s: SceneState)
    requires AllStopped(s) && VectorsBounded(s.left) && VectorsBounded(s.right)
    ensures AllStopped(BallTicks(LaunchPressed(s), LaunchSettleTicks))
    ensures var r := SceneUpdate(BallTicks(LaunchPressed(s), LaunchSettleTicks));
      && r.vars.canDrawNewVectors && r.vars.playersWithVectors == 0
      && (forall i :: 0 <= i < |r.left| ==> !HasVector(r.left[i]))
      && (forall i :: 0 <= i < |r.right| ==> !HasVector(r.right[i]))
  {
    var t := BallTicks(LaunchPressed(s), LaunchSettleTicks);
    forall i | 0 <= i < |t.left| ensures Stopped(t.left[i]) {
      PlayerSettlesAfterLaunch(s.left[i]);
    }
    forall i | 0 <= i < |t.right| ensures Stopped(t.right[i]) {
      PlayerSettlesAfterLaunch(s.right[i]);
    }
    TickedStaysStopped(s.target, LaunchSettleTicks);
    assert AllStopped(t);
    SettleReopensAiming(t);
  }

  // ------------------------------------------------------- gestures on balls

  /** Which ball of the scene a pointer gesture is on. */
  datatype BallRef = LeftPlayer(i: nat) | RightPlayer(i: nat) | TargetBall

  predicate ValidRef(s: SceneState, who: BallRef) {
    match who
    case LeftPlayer(i) => i < |s.left|
    case RightPlayer(i) => i < |s.right|
    case TargetBall => true
  }

  function BallOf(s: SceneState, who: BallRef): BallState
    requires ValidRef(s, who)
  {
    match who
    case LeftPlayer(i) => s.left[i]
    case RightPlayer(i) => s.right[i]
    case TargetBall => s.target
  }

  /** The scene with the referenced ball replaced and nothing else changed. */
  function WithBall(s: SceneState, who: BallRef, b: BallState): (r: SceneState)
    requires ValidRef(s, who)
    ensures ValidRef(r, who) && BallOf(r, who) == b
    ensures |r.left| == |s.left| && |r.right| == |s.right|
  {
    match who
    case LeftPlayer(i) => s.(left := s.left[i := b])
    case RightPlayer(i) => s.(right := s.right[i := b])
    case TargetBall => s.(target := b)
  }

  /** A pointer release on a ball: the ball's `onPointerUp`, and when that
      commits a drag, the `vectorDrawn` report it sends to the scene. */
  function Released(s: SceneState, who: BallRef): SceneState
    requires ValidRef(s, who)
  {
    var b := BallOf(s, who);
    if Aiming(b) then VectorDrawn(WithBall(s, who, PointerUp(b))) else s
  }

  /** A release changes the scene only when the ball was being aimed. */
  lemma ReleasedEffects(s: SceneState, who: BallRef)
    requires ValidRef(s, who)
    ensures var r := Released(s, who);
      !Aiming(BallOf(s, who)) ==> r == s
    ensures var r := Released(s, who);
      Aiming(BallOf(s, who)) ==> r == VectorDrawn(WithBall(s, who, PointerUp(BallOf(s, who))))
  {
  }

  /** The last member of the left team to commit a non-zero vector, with the
      right team already ready, makes the launch button appear. */
  lemma LastReleaseShowsLaunch(s: SceneState, i: nat)
    requires s.vars.canDrawNewVectors && i < |s.left|
    requires Aiming(s.left[i]) && s.left[i].vector != Zero
    requires forall j :: 0 <= j < |s.left| && j != i ==> HasVector(s.left[j])
    requires TeamReady(s.right)
    ensures Released(s, LeftPlayer(i)).hud.launchVisible
    ensures Released(s, LeftPlayer(i)).hud.leftReady == ReadyLabel
    ensures Released(s, LeftPlayer(i)).hud.rightReady == ReadyLabel
  {
    var b := PointerUp(s.left[i]);
    ReadinessIsPerMember(s.left, i, b);
  }

  /** A release never hides the launch button. */
  lemma ReleaseKeepsLaunchButton(s: SceneState, who: BallRef)
    requires ValidRef(s, who) && s.hud.launchVisible
    ensures Released(s, who).hud.launchVisible
  {
  }

  // ------------------------------------------------------------------ class

  predicate Distinct(bs: seq<Ball>) {
    forall i, j :: 0 <= i < j < |bs| ==> bs[i] != bs[j]
  }

  /** The states of a sequence of balls. */
  function States(bs: seq<Ball>): (r: seq<BallState>)
    reads bs
    ensures |r| == |bs|
    ensures forall i :: 0 <= i < |bs| ==> r[i] == bs[i].State()
  {
    seq(|bs|, i reads bs requires 0 <= i < |bs| => bs[i].State())
  }

  /** `launchWithStoredVector` on every ball of a team. */
  method LaunchEach(bs: seq<Ball>)
    requires Distinct(bs)
    modifies bs
    ensures States(bs) == MapBalls(old(States(bs)), Launch)
  {
    var k := 0;
    while k < |bs|
      invariant 0 <= k <= |bs|
      invariant forall j :: 0 <= j < k ==> bs[j].State() == Launch(old(bs[j].State()))
      invariant forall j :: k <= j < |bs| ==> bs[j].State() == old(bs[j].State())
    {
      bs[k].LaunchWithStoredVector();
      k := k + 1;
    }
  }

  /** `enableDrawing` on every ball of a team. */
  method EnableDrawingEach(bs: seq<Ball>)
    requires Distinct(bs)
    modifies bs
    ensures States(bs) == MapBalls(old(States(bs)), DrawingEnabled)
  {
    var k := 0;
    while k < |bs|
      invariant 0 <= k <= |bs|
      invariant forall j :: 0 <= j < k ==> bs[j].State() == DrawingEnabled(old(bs[j].State()))
      invariant forall j :: k <= j < |bs| ==> bs[j].State() == old(bs[j].State())
    {
      bs[k].EnableDrawing();
      k := k + 1;
    }
  }

  /** `reset` followed by `canDraw = true` on every ball of a team. */
  method ResetEach(bs: seq<Ball>)
    requires Distinct(bs)
    modifies bs
    ensures States(bs) == MapBalls(old(States(bs)), PlayerReset)
  {
    var k := 0;
    while k < |bs|
      invariant 0 <= k <= |bs|
      invariant forall j :: 0 <= j < k ==> bs[j].State() == PlayerReset(old(bs[j].State()))
      invariant forall j :: k <= j < |bs| ==> bs[j].State() == old(bs[j].State())
    {
      bs[k].Reset();
      bs[k].canDraw := true;
      k := k + 1;
    }
  }

  /** `objectDeceleration(player, 0.95)` on one ball. */
  method DecelerateBall(o: Ball)
    modifies o
    ensures o.State() == Decelerated(old(o.State()))
  {
    var v := Scale(o.velocity, GoalDeceleration);
    if Abs(v.x) < 1.0 && Abs(v.y) < 1.0 {
      o.velocity := Zero;
      o.immovable := true;
    } else {
      o.velocity := v;
    }
  }

  /** `objectDeceleration(player, 0.95)` on every ball of a team. */
  method DecelerateEach(bs: seq<Ball>)
    requires Distinct(bs)
    modifies bs
    ensures States(bs) == MapBalls(old(States(bs)), Decelerated)
  {
    var k := 0;
    while k < |bs|
      invariant 0 <= k <= |bs|
      invariant forall j :: 0 <= j < k ==> bs[j].State() == Decelerated(old(bs[j].State()))
      invariant forall j :: k <= j < |bs| ==> bs[j].State() == old(bs[j].State())
    {
      DecelerateBall(bs[k]);
      k := k + 1;
    }
    assert forall i :: 0 <= i < |bs| ==> States(bs)[i] == MapBalls(old(States(bs)), Decelerated)[i];
  }

  /** The target's part of `resetRound`: back to the start, and movable. */
  method ResetTarget(t: Ball)
    modifies t
    ensures t.State() == TargetReset(old(t.State()))
  {
    t.Reset();
    t.immovable := false;
  }

  /** The target's part of a counted goal: stopped and made immovable. */
  method FreezeBall(b: Ball)
    modifies b
    ensures b.State() == old(b.State()).(velocity := Zero, immovable := true)
  {
    b.velocity := Zero;
    b.immovable := true;
  }

  /** The balls of a new team, one per position, each named by the prefix
      and its index. */
  method MakeTeam(positions: seq<Vec>, prefix: string) returns (team: seq<Ball>)
    ensures |team| == |positions| && Distinct(team)
    ensures forall i :: 0 <= i < |team| ==> fresh(team[i])
    ensures States(team) == StartTeam(positions)
    ensures forall i :: 0 <= i < |team| ==> team[i].ballId == prefix + NatToString(i)
  {
    team := [];
    var k := 0;
    while k < |positions|
      invariant 0 <= k <= |positions| && |team| == k && Distinct(team)
      invariant forall i :: 0 <= i < k ==> fresh(team[i])
      invariant forall i :: 0 <= i < k ==> team[i].State() == Initial(positions[i])
      invariant forall i :: 0 <= i < k ==> team[i].ballId == prefix + NatToString(i)
    {
      var player := new Ball(positions[k], prefix + NatToString(k));
      team := team + [player];
      k := k + 1;
    }
  }

  /** The target ball as `create` makes it: at the centre, not drawable, movable. */
  method MakeTarget(center: Vec) returns (t: Ball)
    ensures fresh(t)
    ensures t.State() == Initial(center).(canDraw := false, immovable := false)
  {
    t := new Ball(center, "target");
    t.canDraw := false;
    t.immovable := false;
  }

  /** The balls `create` makes: two teams and the target, all distinct. */
  method MakeBalls(leftPositions: seq<Vec>, rightPositions: seq<Vec>, center: Vec)
    returns (l: seq<Ball>, r: seq<Ball>, t: Ball)
    ensures Distinct(l + r + [t])
    ensures States(l) == StartTeam(leftPositions) && States(r) == StartTeam(rightPositions)
    ensures t.State() == Initial(center).(canDraw := false, immovable := false)
  {
    l := MakeTeam(leftPositions, "left");
    ghost var ls := States(l);
    r := MakeTeam(rightPositions, "right");
    assert States(l) == ls;
    assert forall i, j :: 0 <= i < |l| && 0 <= j < |r| ==> l[i] != r[j];
    ghost var rs := States(r);
    t := MakeTarget(center);
    assert States(l) == ls && States(r) == rs;
    JoinDistinct(l, r, t);
  }

  class GameScene {
    const left: seq<Ball>
    const right: seq<Ball>
    const target: Ball
    var vars: SceneVars
    var hud: Hud

    /** No ball appears twice among the two teams and the target. */
    predicate Valid() {
      Distinct(left + right + [target])
    }

    /** The scene's fields and its balls as one value. */
    function State(): SceneState
      reads this, left, right, target
    {
      var b := BallStates();
      SceneState(b.0, b.1, b.2, vars, hud)
    }

    /** The states of the two teams and of the target. */
    function BallStates(): (seq<BallState>, seq<BallState>, BallState)
      reads left, right, target
    {
      (States(left), States(right), target.State())
    }

    /** The scene as `create` leaves it. */
    constructor (leftPositions: seq<Vec>, rightPositions: seq<Vec>, center: Vec)
      requires |leftPositions| == PlayersPerTeam && |rightPositions| == PlayersPerTeam
      ensures Valid() && State() == Start(leftPositions, rightPositions, center)
    {
      var l, r, t := MakeBalls(leftPositions, rightPositions, center);
      left, right, target := l, r, t;
      vars := SceneVars(0, 0, WinningScore, GameDuration, false, false, false, true, 0, None);
      hud := Hud(false, NotReadyLabel, NotReadyLabel, [], false, GameDuration);
      new;
      assert BallStates() == (StartTeam(leftPositions), StartTeam(rightPositions), Initial(center).(canDraw := false, immovable := false));
    }

    /** What `Valid` says about the parts: each team is duplicate-free and no
        ball is in both teams or is the target. */
    lemma ValidParts()
      requires Valid()
      ensures Distinct(left) && Distinct(right)
      ensures forall i :: 0 <= i < |left| ==> left[i] !in right && left[i] != target
      ensures forall j :: 0 <= j < |right| ==> right[j] !in left && right[j] != target
      ensures target !in left && target !in right
    {
      var all := left + right + [target];
      forall i, j | 0 <= i < j < |left| ensures left[i] != left[j] {
        assert all[i] == left[i] && all[j] == left[j];
      }
      forall i, j | 0 <= i < j < |right| ensures right[i] != right[j] {
        assert all[|left| + i] == right[i] && all[|left| + j] == right[j];
      }
      forall i, j | 0 <= i < |left| && 0 <= j < |right| ensures left[i] != right[j] {
        assert all[i] == left[i] && all[|left| + j] == right[j];
      }
      forall i | 0 <= i < |left| ensures left[i] != target {
        assert all[i] == left[i] && all[|all| - 1] == target;
      }
      forall j | 0 <= j < |right| ensures right[j] != target {
        assert all[|left| + j] == right[j] && all[|all| - 1] == target;
      }
    }

    method StartGameTimer()
      modifies this
      ensures State() == old(State()).(vars := old(vars).(timerRunning := true))
    {
      vars := vars.(timerRunning := true);
    }

    method StopTimer()
      modifies this
      ensures State() == old(State()).(vars := old(vars).(timerRunning := false))
    {
      vars := vars.(timerRunning := false);
    }

    method UpdateTimer()
      modifies this
      ensures State() == TimerTick(old(State()))
    {
      if vars.timerPaused {
        return;
      }
      ghost var s0 := State();
      vars := vars.(gameTime := vars.gameTime - 1);
      hud := hud.(timerShows := vars.gameTime);
      assert State() == OneSecondLess(s0);
      if vars.gameTime <= 0 {
        EndGame();
      }
    }

    method EndGame()
      modifies this
      ensures State() == GameEnded(old(State()))
    {
      ghost var s0 := State();
      vars := vars.(canDrawNewVectors := false, timerRunning := false);
      assert State() == s0.(vars := s0.vars.(canDrawNewVectors := false, timerRunning := false));
      var w: Option<string> := None;
      if vars.leftScore > vars.rightScore {
        w := Some(LeftTeam);
      } else if vars.rightScore > vars.leftScore {
        w := Some(RightTeam);
      }
      ResultScreen(w);
    }

    method ResultScreen(team: Option<string>)
      modifies this
      ensures State() == ResultShown(old(State()), team)
    {
      StopTimer();
      vars := vars.(canDrawNewVectors := false);
      var text := if team.Some? then team.value + WinsSuffix else DrawLabel;
      hud := hud.(results := hud.results + [Banner(text, true)], resetVisible := true);
    }

    /** The `vectorDrawn` listener; the reporting ball's id is not used. */
    method OnPlayerVectorDrawn(playerId: string)
      modifies this
      ensures State() == VectorDrawn(old(State()))
    {
      if vars.canDrawNewVectors {
        ghost var s0 := State();
        var leftTeamReady := TeamReady(States(left));
        var rightTeamReady := TeamReady(States(right));
        var counted := vars.(playersWithVectors := vars.playersWithVectors + 1);
        var shown := hud.(leftReady := ReadinessText(leftTeamReady), rightReady := ReadinessText(rightTeamReady));
        if leftTeamReady && rightTeamReady {
          shown := shown.(launchVisible := true);
        }
        assert VectorDrawn(s0) == s0.(vars := counted, hud := shown);
        vars, hud := counted, shown;
      }
    }

    method OnLaunchButtonPressed()
      requires Valid()
      modifies this, left, right
      ensures State() == LaunchPressed(old(State()))
    {
      vars := vars.(canDrawNewVectors := false);
      LaunchTeams();
      hud := hud.(launchVisible := false, leftReady := NotReadyLabel, rightReady := NotReadyLabel);
    }

    /** `launchWithStoredVector` on every player of both teams. */
    method LaunchTeams()
      requires Valid()
      modifies left, right
      ensures States(left) == MapBalls(old(States(left)), Launch)
      ensures States(right) == MapBalls(old(States(right)), Launch)
      ensures target.State() == old(target.State())
    {
      ValidParts();
      LaunchEach(left);
      LaunchEach(right);
    }

    method OnGoalScored(zone: GoalZone)
      requires Valid()
      modifies this, left, right, target
      ensures State() == GoalScored(old(State()), zone)
    {
      if LengthSq(target.velocity) > GoalSpeed * GoalSpeed && !vars.isResetting {
        ghost var s0 := State();
        var v := GoalVars(vars, zone);
        StopAll();
        vars := v;
        assert BallStates() == (MapBalls(s0.left, Decelerated), MapBalls(s0.right, Decelerated),
                                s0.target.(velocity := Zero, immovable := true));
      }
    }

    /** The balls' part of a counted goal: every player slowed once, the
        target stopped and frozen. */
    method StopAll()
      requires Valid()
      modifies left, right, target
      ensures States(left) == MapBalls(old(States(left)), Decelerated)
      ensures States(right) == MapBalls(old(States(right)), Decelerated)
      ensures target.State() == old(target.State()).(velocity := Zero, immovable := true)
    {
      ValidParts();
      DecelerateTeams();
      FreezeBall(target);
    }

    /** `objectDeceleration(player, 0.95)` on every player of both teams. */
    method DecelerateTeams()
      requires Valid()
      modifies left, right
      ensures States(left) == MapBalls(old(States(left)), Decelerated)
      ensures States(right) == MapBalls(old(States(right)), Decelerated)
      ensures target.State() == old(target.State())
    {
      ValidParts();
      DecelerateEach(left);
      DecelerateEach(right);
    }

    /** The callback run three seconds after a counted goal. */
    method FinishGoalPause()
      requires Valid()
      modifies this, left, right, target
      ensures State() == FinishPause(old(State()))
    {
      ghost var s0 := State();
      vars := vars.(isResetting := false, timerPaused := false);
      ghost var t := s0.(vars := s0.vars.(isResetting := false, timerPaused := false));
      assert State() == t;
      if vars.leftScore == vars.winningScore {
        vars := vars.(winner := Some(LeftTeam));
        assert State() == t.(vars := t.vars.(winner := Some(LeftTeam)));
        ResultScreen(vars.winner);
      } else if vars.rightScore == vars.winningScore {
        vars := vars.(winner := Some(RightTeam));
        assert State() == t.(vars := t.vars.(winner := Some(RightTeam)));
        ResultScreen(vars.winner);
      } else {
        ResetRound();
      }
    }

    method ResetGame()
      requires Valid()
      modifies this, left, right, target
      ensures State() == GameRestarted(old(State()))
    {
      ghost var s0 := State();
      vars := vars.(leftScore := 0, rightScore := 0);
      hud := hud.(resetVisible := false);
      assert State() == ScoresCleared(s0);
      if |hud.results| == 0 {
        // `this.resultText` is still `null`: the handler throws here.
        return;
      }
      ghost var t := ScoresCleared(s0).(hud := ScoresCleared(s0).hud.(results := LatestHidden(hud.results)));
      hud := hud.(results := LatestHidden(hud.results));
      assert State() == t;
      ResetRound();
      ghost var u := RoundReset(t);
      assert State() == u;
      vars := vars.(gameTime := GameDuration);
      assert State() == u.(vars := u.vars.(gameTime := GameDuration));
      StartGameTimer();
    }

    method ResetRound()
      requires Valid()
      modifies this, left, right, target
      ensures State() == RoundReset(old(State()))
    {
      ResetBalls();
      vars := vars.(canDrawNewVectors := true, playersWithVectors := 0);
      hud := hud.(launchVisible := false);
    }

    method ResetBalls()
      requires Valid()
      modifies left, right, target
      ensures States(left) == MapBalls(old(States(left)), PlayerReset)
      ensures States(right) == MapBalls(old(States(right)), PlayerReset)
      ensures target.State() == TargetReset(old(target.State()))
    {
      ValidParts();
      ResetTarget(target);
      ResetTeams();
    }

    /** `reset` and drawing allowed on every player of both teams. */
    method ResetTeams()
      requires Valid()
      modifies left, right
      ensures States(left) == MapBalls(old(States(left)), PlayerReset)
      ensures States(right) == MapBalls(old(States(right)), PlayerReset)
      ensures target.State() == old(target.State())
    {
      ValidParts();
      ResetEach(left);
      ResetEach(right);
    }

    method Update()
      requires Valid()
      modifies this, left, right
      ensures State() == SceneUpdate(old(State()))
    {
      if !vars.canDrawNewVectors {
        if AllPlayersStopped() {
          EnableNewShot();
        }
      }
    }

    /** Checked on the balls themselves: every player and the target is
        slower than `SettleSpeed`. */
    function AllPlayersStopped(): (r: bool)
      reads this, left, right, target
      ensures r == AllStopped(State())
    {
      && (forall i :: 0 <= i < |left| ==> LengthSq(left[i].velocity) < SettleSpeed * SettleSpeed)
      && (forall i :: 0 <= i < |right| ==> LengthSq(right[i].velocity) < SettleSpeed * SettleSpeed)
      && LengthSq(target.velocity) < SettleSpeed * SettleSpeed
    }

    method EnableNewShot()
      requires Valid()
      modifies this, left, right
      ensures State() == NewShotEnabled(old(State()))
    {
      vars := vars.(canDrawNewVectors := true, playersWithVectors := 0);
      EnableDrawingTeams();
    }

    /** `enableDrawing` on every player of both teams. */
    method EnableDrawingTeams()
      requires Valid()
      modifies left, right
      ensures States(left) == MapBalls(old(States(left)), DrawingEnabled)
      ensures States(right) == MapBalls(old(States(right)), DrawingEnabled)
      ensures target.State() == old(target.State())
    {
      ValidParts();
      EnableDrawingEach(left);
      EnableDrawingEach(right);
    }

    predicate Holds(who: BallRef) {
      match who
      case LeftPlayer(i) => i < |left|
      case RightPlayer(i) => i < |right|
      case TargetBall => true
    }

    function BallFor(who: BallRef): Ball
      requires Holds(who)
    {
      match who
      case LeftPlayer(i) => left[i]
      case RightPlayer(i) => right[i]
      case TargetBall => target
    }

    /** A pointer release on one ball, with its `vectorDrawn` report delivered
        to the scene. */
    method OnPointerUpAt(who: BallRef)
      requires Valid() && Holds(who)
      modifies this, BallFor(who)
      ensures ValidRef(old(State()), who)
      ensures State() == Released(old(State()), who)
    {
      var drawn, id := ReleaseBall(who);
      if drawn {
        OnPlayerVectorDrawn(id);
      }
    }

    /** The ball's own part of a pointer release: `onPointerUp` on that ball,
        which reports whether it committed a drag. */
    method ReleaseBall(who: BallRef) returns (drawn: bool, id: string)
      requires Valid() && Holds(who)
      modifies BallFor(who)
      ensures ValidRef(old(State()), who)
      ensures drawn == Aiming(BallOf(old(State()), who))
      ensures State() == if drawn then WithBall(old(State()), who, PointerUp(BallOf(old(State()), who)))
                         else old(State())
    {
      ValidParts();
      ghost var s0 := State();
      var b := BallFor(who);
      id := b.ballId;
      drawn := b.OnPointerUp();
      match who {
        case LeftPlayer(i) =>
          assert States(left) == s0.left[i := b.State()];
        case RightPlayer(i) =>
          assert States(right) == s0.right[i := b.State()];
        case TargetBall =>
      }
    }
  }

  lemma JoinDistinct(l: seq<Ball>, r: seq<Ball>, t: Ball)
    requires Distinct(l) && Distinct(r)
    requires forall i, j :: 0 <= i < |l| && 0 <= j < |r| ==> l[i] != r[j]
    requires forall i :: 0 <= i < |l| ==> l[i] != t
    requires forall j :: 0 <= j < |r| ==> r[j] != t
    ensures Distinct(l + r + [t])
  {
    var all := l + r + [t];
    forall i, j | 0 <= i < j < |all| ensures all[i] != all[j] {
      if j < |l| {
      } else if j < |l| + |r| {
        if i >= |l| {
          assert all[i] == r[i - |l|] && all[j] == r[j - |l|];
        }
      }
    }
  }
}
