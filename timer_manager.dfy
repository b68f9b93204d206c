/** The stand-alone timer helper: a second copy of the scene's countdown
    formatter and of its timer callback, written as static functions that take
    the scene as an argument. */
module TimerManager {
  import opened JsText
  import Scene

  /** `TimerManager.formatTime`, written out on its own. */
  function FormatTime(seconds: int): (t: string)
    ensures |t| >= 5
  {
    var minutes := FloorDiv(seconds, 60);
    var remainingSeconds := Rem(seconds, 60);
    PadStart2(IntToString(minutes)) + ":" + PadStart2(IntToString(remainingSeconds))
  }

  /** The helper's formatter and the scene's print the same text for every count. */
  lemma SameAsScene(seconds: int)
    ensures FormatTime(seconds) == Scene.FormatTime(seconds)
  {
  }

  /** Below 100 minutes the helper's text is `MM:SS`, and its two fields read
      back as the minutes and seconds of the count. */
  lemma FormatTimeRoundTrip(seconds: int)
    requires 0 <= seconds < 6000
    ensures var t := FormatTime(seconds);
      && |t| == 5 && t[2] == ':'
      && IsDigits(t[..2]) && IsDigits(t[3..])
      && DecimalValue(t[..2]) * 60 + DecimalValue(t[3..]) == seconds
  {
    SameAsScene(seconds);
    Scene.FormatTimeRoundTrip(seconds);
  }

  /** The seconds field is always between "00" and "59". */
  lemma SecondsFieldInRange(seconds: int)
    requires seconds >= 0
    ensures var t := FormatTime(seconds);
      && t[|t| - 3] == ':'
      && '0' <= t[|t| - 2] <= '5'
      && '0' <= t[|t| - 1] <= '9'
  {
    SameAsScene(seconds);
    Scene.SecondsFieldInRange(seconds);
  }

  /** `TimerManager.updateTimer(scene)`: the same step as the scene's own
      callback, made from outside the scene. */
  method UpdateTimer(scene: Scene.GameScene)
    modifies scene
    ensures scene.State() == Scene.TimerTick(old(scene.State()))
  {
    if scene.vars.timerPaused {
      return;
    }
    ghost var s0 := scene.State();
    var counted := scene.vars.(gameTime := scene.vars.gameTime - 1);
    var shown := scene.hud.(timerShows := counted.gameTime);
    scene.vars, scene.hud := counted, shown;
    assert scene.State() == Scene.OneSecondLess(s0);
    if scene.vars.gameTime <= 0 {
      scene.EndGame();
    }
  }
}
