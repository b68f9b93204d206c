/** The per-tick friction that brings a moving ball back to rest, on
    velocities alone. */
module Motion {
  import opened Geometry

  /** Per-tick velocity factor of a moving ball. */
  const Friction: real := 0.99
  /** A moving ball whose speed falls below this after friction stops dead. */
  const StopSpeed: real := 10.0

  /** One friction tick applied to a velocity: scale by `Friction`, then stop
      the ball if the result is slower than `StopSpeed`. */
  function FrictionStep(v: Vec): Vec {
    var scaled := Scale(v, Friction);
    if LengthSq(scaled) < StopSpeed * StopSpeed then Zero else scaled
  }

  /** A friction tick never speeds a ball up. */
  lemma FrictionStepSlows(v: Vec)
    ensures LengthSq(FrictionStep(v)) <= LengthSq(v)
  {
    LengthSqScale(v, Friction);
  }

  /** After a friction tick a ball is either at rest or still at least as fast
      as `StopSpeed`, moving in its old direction at 99 % of its old speed. */
  lemma FrictionStepSnaps(v: Vec)
    ensures FrictionStep(v) == Zero || (FrictionStep(v) == Scale(v, Friction) && LengthSq(FrictionStep(v)) >= StopSpeed * StopSpeed)
  {
  }

  /** The velocity after `n` friction ticks of a ball that stays movable. */
  function FrictionTicks(v: Vec, n: nat): Vec
    decreases n
  {
    if n == 0 then v else FrictionTicks(FrictionStep(v), n - 1)
  }

  lemma FrictionStepAtRest()
    ensures FrictionStep(Zero) == Zero
  {
    assert Scale(Zero, Friction) == Zero;
    assert LengthSq(Zero) == 0.0;
  }

  /** A velocity that one friction tick leaves alone is left alone by any number of ticks. */
  lemma {:induction false} FixedPointStays(v: Vec, n: nat)
    requires FrictionStep(v) == v
    ensures FrictionTicks(v, n) == v
    decreases n
  {
    if n > 0 {
      FixedPointStays(v, n - 1);
    }
  }

  /** Rest is a fixed point of friction. */
  lemma RestStaysAtRest(n: nat)
    ensures FrictionTicks(Zero, n) == Zero
  {
    FrictionStepAtRest();
    FixedPointStays(Zero, n);
  }

  /** Friction never speeds a ball up, however many ticks pass. */
  lemma {:induction false} FrictionTicksSlowDown(v: Vec, n: nat)
    ensures LengthSq(FrictionTicks(v, n)) <= LengthSq(v)
    decreases n
  {
    if n > 0 {
      FrictionStepSlows(v);
      FrictionTicksSlowDown(FrictionStep(v), n - 1);
    }
  }

  /** While a ball keeps moving, each tick takes more than 2 off its squared
      speed: it is still moving after the tick only if its squared speed was
      at least 100 / 0.9801, and it loses 1.99 % of that. So a ball whose
      squared speed is below `100 + 2 n` is at rest after `n + 1` ticks. */
  lemma {:induction false} FrictionStopsWithin(v: Vec, n: nat)
    requires LengthSq(v) < StopSpeed * StopSpeed + 2.0 * n as real
    ensures FrictionTicks(v, n + 1) == Zero
    decreases n
  {
    var w := FrictionStep(v);
    LengthSqScale(v, Friction);
    FrictionStepSnaps(v);
    if w == Zero {
      RestStaysAtRest(n);
    } else {
      assert n > 0;
      FrictionStopsWithin(w, n - 1);
    }
  }

  /** A ball launched at speed 200 or less is at rest after 19952 ticks. */
  lemma StopsFromSpeed200(v: Vec)
    requires LengthSq(v) <= 200.0 * 200.0
    ensures FrictionTicks(v, 19952) == Zero
  {
    FrictionStopsWithin(v, 19951);
  }
}
