/** One ball of the game (a player of either team, or the shared target):
    its aim gesture, the vector it commits, the launch that turns that vector
    into a velocity, and the per-tick friction that brings it back to rest.

    `BallState` and the functions on it say what each operation does to a
    ball; `class Ball` holds the same state in fields that its methods update
    in place, and each method is proved to perform the matching function. */
module Balls {
  import opened Geometry
  import opened Motion

  /** Longest aim vector a drag may produce. */
  const MaximumLength: real := 1000.0
  /** Launch velocity is the stored vector times this factor, pointing backwards. */
  const ForceMultiplier: real := 5.0

  datatype BallState = BallState(
    position: Vec,
    velocity: Vec,
    immovable: bool,
    canDraw: bool,
    touchDown: bool,
    vector: Vec,
    storedVector: Vec,
    positionStart: Vec,
    positionEnd: Vec,
    initialPosition: Vec)

  /** The state in which a ball is created at `at`: frozen, ready to be aimed,
      with every vector zero. */
  function Initial(at: Vec): (b: BallState)
    ensures b.position == at && b.initialPosition == at && b.velocity == Zero
    ensures b.immovable && b.canDraw && !b.touchDown
    ensures b.vector == Zero && b.storedVector == Zero
  {
    BallState(at, Zero, true, true, false, Zero, Zero, Zero, Zero, at)
  }

  /** True while a drag on this ball is in progress and may change its aim. */
  predicate Aiming(b: BallState) {
    b.touchDown && b.canDraw
  }

  // ---------------------------------------------------------------- friction

  /** `update`: friction acts only on a ball that is not frozen. */
  function Tick(b: BallState): (r: BallState)
    ensures b.immovable ==> r == b
    ensures !b.immovable ==> r.velocity == FrictionStep(b.velocity)
    ensures r.(velocity := b.velocity) == b
  {
    if b.immovable then b else b.(velocity := FrictionStep(b.velocity))
  }

  /** `n` calls of `update` on one ball (all it does is act on the velocity). */
  function Ticked(b: BallState, n: nat): BallState
    decreases n
  {
    if n == 0 then b else Ticked(Tick(b), n - 1)
  }

  /** A frozen ball is left as it is by any number of ticks; a movable one
      follows the friction sequence of its velocity and nothing else changes. */
  lemma {:induction false} TickedFollowsFriction(b: BallState, n: nat)
    ensures b.immovable ==> Ticked(b, n) == b
    ensures !b.immovable ==> Ticked(b, n) == b.(velocity := FrictionTicks(b.velocity, n))
    decreases n
  {
    if n > 0 {
      TickedFollowsFriction(Tick(b), n - 1);
    }
  }

  /** Ticks after which a ball launched by any committed vector is at rest. */
  const LaunchSettleTicks: nat := 12500001

  /** A launch from a vector no longer than `MaximumLength` is at most
      `ForceMultiplier * MaximumLength` fast, and friction brings it to rest
      within `LaunchSettleTicks` ticks. */
  lemma LaunchedBallComesToRest(b: BallState)
    requires LengthSq(b.storedVector) <= MaximumLength * MaximumLength
    requires b.storedVector != Zero
    ensures Ticked(Launch(b), LaunchSettleTicks).velocity == Zero
  {
    var sv := b.storedVector;
    var v := Launch(b).velocity;
    assert v == Scale(sv, -ForceMultiplier);
    LengthSqScale(sv, -ForceMultiplier);
    assert LengthSq(v) <= 25.0 * (MaximumLength * MaximumLength);
    TickedFollowsFriction(Launch(b), LaunchSettleTicks);
    FrictionStopsWithin(v, LaunchSettleTicks - 1);
  }

  // -------------------------------------------------------------- aim capture

  /** `onPointerDown`: a frozen ball that may be drawn starts a drag whose start
      is the ball's own position and whose end is the pointer. Nothing else
      happens, and in particular `vector` keeps its old value. */
  function PointerDown(b: BallState, pointer: Vec): (r: BallState)
    ensures r.touchDown == (b.touchDown || (b.immovable && b.canDraw))
    ensures b.immovable && b.canDraw ==> r.positionStart == b.position && r.positionEnd == pointer
    ensures !(b.immovable && b.canDraw) ==> r == b
    ensures r.(touchDown := b.touchDown, positionStart := b.positionStart, positionEnd := b.positionEnd) == b
  {
    if b.immovable && b.canDraw then
      b.(touchDown := true, positionStart := b.position, positionEnd := pointer)
    else
      b
  }

  /** What the caller of a drag step must supply in place of a square root:
      when the raw vector is longer than `MaximumLength`, a factor `k` in (0, 1]
      that brings it to exactly that length. */
  predicate IsClampFactor(v: Vec, k: real) {
    LengthSq(v) > MaximumLength * MaximumLength ==>
      0.0 < k <= 1.0 && k * k * LengthSq(v) == MaximumLength * MaximumLength
  }

  /** The aim vector of a drag: `v` itself when it is no longer than
      `MaximumLength`, otherwise `v` shrunk along its own direction to exactly
      that length. */
  function Clamp(v: Vec, k: real): (r: Vec)
    requires IsClampFactor(v, k)
    ensures LengthSq(r) <= MaximumLength * MaximumLength
    ensures LengthSq(v) <= MaximumLength * MaximumLength ==> r == v
    ensures LengthSq(v) > MaximumLength * MaximumLength ==>
      r == Scale(v, k) && 0.0 < k <= 1.0 && LengthSq(r) == MaximumLength * MaximumLength
  {
    LengthSqScale(v, k);
    if LengthSq(v) > MaximumLength * MaximumLength then Scale(v, k) else v
  }

  /** The precondition of a drag step on `b` towards `pointer`. */
  predicate MoveAllowed(b: BallState, pointer: Vec, k: real) {
    Aiming(b) ==> IsClampFactor(Sub(pointer, b.positionStart), k)
  }

  /** `onPointerMove`: during a drag, the end follows the pointer and the aim
      vector becomes end minus start, clamped to `MaximumLength`. */
  function PointerMove(b: BallState, pointer: Vec, k: real): (r: BallState)
    requires MoveAllowed(b, pointer, k)
    ensures !Aiming(b) ==> r == b
    ensures Aiming(b) ==> r.positionEnd == pointer && r.vector == Clamp(Sub(pointer, b.positionStart), k)
    ensures Aiming(b) ==> LengthSq(r.vector) <= MaximumLength * MaximumLength
    ensures r.(positionEnd := b.positionEnd, vector := b.vector) == b
  {
    if Aiming(b) then
      b.(positionEnd := pointer, vector := Clamp(Sub(pointer, b.positionStart), k))
    else
      b
  }

  /** `onPointerUp`: a drag in progress ends and commits the current aim
      vector; otherwise nothing happens. The caller learns from `Aiming(b)`
      whether a `vectorDrawn` event is emitted. */
  function PointerUp(b: BallState): (r: BallState)
    ensures !Aiming(b) ==> r == b
    ensures Aiming(b) ==> !r.touchDown && r.storedVector == b.vector
    ensures r.(touchDown := b.touchDown, storedVector := b.storedVector) == b
  {
    if Aiming(b) then b.(touchDown := false, storedVector := b.vector) else b
  }

  // ------------------------------------------------------------ launch, reset

  /** `launchWithStoredVector`: a ball with a non-zero stored vector is released
      and thrown the opposite way at `ForceMultiplier` times that vector; a ball
      with a zero stored vector is left exactly as it is. */
  function Launch(b: BallState): (r: BallState)
    ensures b.storedVector == Zero ==> r == b
    ensures b.storedVector != Zero ==>
      && !r.immovable && !r.canDraw
      && r.velocity == Vec(-b.storedVector.x * ForceMultiplier, -b.storedVector.y * ForceMultiplier)
    ensures r.(immovable := b.immovable, canDraw := b.canDraw, velocity := b.velocity) == b
  {
    if b.storedVector != Zero then
      b.(immovable := false, canDraw := false,
         velocity := Vec(-b.storedVector.x * ForceMultiplier, -b.storedVector.y * ForceMultiplier))
    else
      b
  }

  /** `enableDrawing`: the ball is frozen where it is and may be aimed afresh;
      its velocity, position and any drag in progress are not touched. */
  function DrawingEnabled(b: BallState): (r: BallState)
    ensures r.immovable && r.canDraw && r.vector == Zero && r.storedVector == Zero
    ensures r.(immovable := b.immovable, canDraw := b.canDraw, vector := b.vector, storedVector := b.storedVector) == b
  {
    b.(immovable := true, storedVector := Zero, vector := Zero, canDraw := true)
  }

  /** `reset`: the ball goes back to its initial position at rest, frozen,
      ready to be aimed afresh. A drag in progress (`touchDown`) is not ended. */
  function ResetToStart(b: BallState): (r: BallState)
    ensures r.position == b.initialPosition && r.velocity == Zero
    ensures r.immovable && r.canDraw && r.vector == Zero && r.storedVector == Zero
    ensures r.initialPosition == b.initialPosition && r.touchDown == b.touchDown
    ensures r.positionStart == b.positionStart && r.positionEnd == b.positionEnd
  {
    b.(position := b.initialPosition, velocity := Zero, immovable := true,
       vector := Zero, storedVector := Zero, canDraw := true)
  }

  // ------------------------------------------------------------------ lemmas

  /** Outside a drag, the committed vector equals the aim vector: the only
      operation that changes `vector` runs during a drag, and the release
      that ends a drag copies it. */
  predicate AimConsistent(b: BallState) {
    b.touchDown || b.storedVector == b.vector
  }

  lemma AimConsistentInitially(at: Vec)
    ensures AimConsistent(Initial(at))
  {
  }

  /** Every operation on a ball keeps `AimConsistent`. */
  lemma AimConsistentPreserved(b: BallState, pointer: Vec, k: real)
    requires AimConsistent(b)
    ensures AimConsistent(Tick(b))
    ensures AimConsistent(PointerDown(b, pointer))
    ensures MoveAllowed(b, pointer, k) ==> AimConsistent(PointerMove(b, pointer, k))
    ensures AimConsistent(PointerUp(b))
    ensures AimConsistent(Launch(b))
    ensures AimConsistent(DrawingEnabled(b))
    ensures AimConsistent(ResetToStart(b))
  {
  }

  /** A press and release with no drag in between commits whatever `vector`
      already held: the press does not clear it. */
  lemma TapCommitsOldVector(b: BallState, pointer: Vec)
    requires b.immovable && b.canDraw
    ensures PointerUp(PointerDown(b, pointer)).storedVector == b.vector
    ensures !PointerUp(PointerDown(b, pointer)).touchDown
  {
  }

  /** Hence, outside a drag, a tap leaves the committed vector as it was; it
      is zero only when nothing was aimed since `enableDrawing` or `reset`. */
  lemma TapKeepsStoredVector(b: BallState, pointer: Vec)
    requires AimConsistent(b) && !b.touchDown
    ensures PointerUp(PointerDown(b, pointer)).storedVector == b.storedVector
  {
  }

  lemma TapAfterEnableDrawingCommitsZero(b: BallState, pointer: Vec)
    requires !b.touchDown
    ensures PointerUp(PointerDown(DrawingEnabled(b), pointer)).storedVector == Zero
    ensures PointerUp(PointerDown(ResetToStart(b), pointer)).storedVector == Zero
  {
  }

  /** A full gesture on a frozen drawable ball: press, drag to `pointer`, release.
      The committed vector is the pointer minus the ball's position, clamped. */
  lemma DragCommitsClampedVector(b: BallState, down: Vec, pointer: Vec, k: real)
    requires b.immovable && b.canDraw
    requires IsClampFactor(Sub(pointer, b.position), k)
    ensures MoveAllowed(PointerDown(b, down), pointer, k)
    ensures PointerUp(PointerMove(PointerDown(b, down), pointer, k)).storedVector
         == Clamp(Sub(pointer, b.position), k)
  {
  }

  /** A launched ball ignores every aim gesture until it is re-enabled. */
  lemma LaunchedIgnoresGestures(b: BallState, pointer: Vec, k: real)
    requires b.storedVector != Zero
    ensures PointerDown(Launch(b), pointer) == Launch(b)
    ensures PointerMove(Launch(b), pointer, k) == Launch(b)
    ensures PointerUp(Launch(b)) == Launch(b)
  {
  }

  /** The launch example: stored vector (10, 0) gives velocity (-50, 0). */
  lemma LaunchExample(b: BallState)
    requires b.storedVector == Vec(10.0, 0.0)
    ensures Launch(b).velocity == Vec(-50.0, 0.0) && !Launch(b).immovable
  {
  }

  // ------------------------------------------------------------------- class

  class Ball {
    const ballId: string
    var x: real
    var y: real
    var velocity: Vec
    var immovable: bool
    var canDraw: bool
    var touchDown: bool
    var vector: Vec
    var storedVector: Vec
    var positionStart: Vec
    var positionEnd: Vec
    const initialPosition: Vec

    /** The ball's fields as one value. */
    function State(): BallState
      reads this
    {
      BallState(Vec(x, y), velocity, immovable, canDraw, touchDown,
                vector, storedVector, positionStart, positionEnd, initialPosition)
    }

    constructor (at: Vec, id: string)
      ensures State() == Initial(at) && ballId == id
    {
      ballId := id;
      x, y := at.x, at.y;
      velocity := Zero;
      immovable := true;
      canDraw := true;
      touchDown := false;
      vector, storedVector := Zero, Zero;
      positionStart, positionEnd := Zero, Zero;
      initialPosition := at;
    }

    method Update()
      modifies this
      ensures State() == Tick(old(State()))
    {
      if !immovable {
        velocity := Scale(velocity, Friction);
        if LengthSq(velocity) < StopSpeed * StopSpeed {
          velocity := Zero;
        }
      }
    }

    method OnPointerDown(pointer: Vec)
      modifies this
      ensures State() == PointerDown(old(State()), pointer)
    {
      if immovable && canDraw {
        touchDown := true;
        positionStart := Vec(x, y);
        positionEnd := pointer;
      }
    }

    /** `k` stands for `maximumLength / length(end - start)`, needed only when
        the dragged vector is too long. */
    method OnPointerMove(pointer: Vec, k: real)
      requires MoveAllowed(State(), pointer, k)
      modifies this
      ensures State() == PointerMove(old(State()), pointer, k)
    {
      if touchDown && canDraw {
        positionEnd := pointer;
        vector := Sub(positionEnd, positionStart);
        if LengthSq(vector) > MaximumLength * MaximumLength {
          vector := Scale(vector, k);
        }
      }
    }

    /** Returns whether the `vectorDrawn` event is emitted. */
    method OnPointerUp() returns (drawn: bool)
      modifies this
      ensures drawn == Aiming(old(State()))
      ensures State() == PointerUp(old(State()))
    {
      drawn := touchDown && canDraw;
      if drawn {
        touchDown := false;
        storedVector := vector;
      }
    }

    method LaunchWithStoredVector()
      modifies this
      ensures State() == Launch(old(State()))
    {
      if storedVector != Zero {
        immovable := false;
        canDraw := false;
        velocity := Vec(-storedVector.x * ForceMultiplier, -storedVector.y * ForceMultiplier);
      }
    }

    method EnableDrawing()
      modifies this
      ensures State() == DrawingEnabled(old(State()))
    {
      immovable := true;
      storedVector := Zero;
      vector := Zero;
      canDraw := true;
    }

    method Reset()
      modifies this
      ensures State() == ResetToStart(old(State()))
    {
      x, y := initialPosition.x, initialPosition.y;
      velocity := Zero;
      immovable := true;
      vector := Zero;
      storedVector := Zero;
      canDraw := true;
    }
  }
}
