/**
 * The move record and the force-based step of the go-kart, as pure
 * functions of a kart state.  `Step` is the value that the movement
 * component's SimulateMove computes in place; `Replay` folds it over a
 * sequence of moves, which is what reconciliation does with the moves the
 * server has not yet acknowledged.
 */
module MotionModel {
  import opened Vectors
  import opened UnrealEngine

  function Abs(k: real): real {
    if k < 0.0 then -k else k
  }

  /**
   * One timestamped unit of player input (FGoKartMove): the two control
   * inputs, the frame time it covers and the world time it was made at.
   */
  datatype Move = Move(throttle: real, steeringThrow: real, deltaTime: real, time: real) {

    /** The move's inputs are in range; its timing fields are not inspected. */
    function IsValidMove(): (valid: bool)
      ensures valid <==> -1.0 <= throttle <= 1.0 && -1.0 <= steeringThrow <= 1.0
    {
      Abs(throttle) <= 1.0 && Abs(steeringThrow) <= 1.0
    }
  }

  /**
   * The kart's tuning: mass (kg), full-throttle driving force (N), turning
   * radius at full lock (m), drag coefficient and rolling-resistance
   * coefficient.
   */
  datatype Params = Params(
    mass: real,
    maxDrivingForce: real,
    minTurningRadius: real,
    dragCoef: real,
    rollingResistanceCoef: real)
  {
    /** The two quantities the step divides by are non-zero. */
    predicate Valid() {
      mass != 0.0 && minTurningRadius != 0.0
    }
  }

  /** The tuning a freshly created movement component starts with. */
  function DefaultParams(): (p: Params)
    ensures p.mass > 0.0 && p.maxDrivingForce > 0.0 && p.minTurningRadius > 0.0
    ensures p.dragCoef > 0.0 && p.rollingResistanceCoef > 0.0
    ensures p.Valid()
  {
    Params(1000.0, 10000.0, 10.0, 16.0, 0.015)
  }

  /** Where the kart is and how fast it moves (m/s, world space). */
  datatype KartState = KartState(transform: Transform, velocity: Vec3)

  /** The force of the engine: the forward vector times full force times throttle. */
  function DrivingForce(e: Engine, p: Params, t: Transform, throttle: real): Vec3 {
    Scale(Scale(e.forward(t), p.maxDrivingForce), throttle)
  }

  /**
   * Air drag: against the velocity, growing with the square of the speed.
   * A kart at rest meets none, whatever the engine's safe normal of zero is.
   */
  function AirResistance(e: Engine, p: Params, v: Vec3): (r: Vec3)
    ensures v == Zero ==> r == Zero
  {
    ScaleByZero(Scale(e.safeNormal(v), -1.0));
    ScaleOfZero(p.dragCoef);
    Scale(Scale(Scale(e.safeNormal(v), -1.0), SizeSquared(v)), p.dragCoef)
  }

  /**
   * Rolling resistance: against the velocity, proportional to the normal
   * force.  A kart at rest meets none.
   */
  function RollingResistance(e: Engine, p: Params, v: Vec3): (r: Vec3)
    ensures e.Valid() && v == Zero ==> r == Zero
  {
    var accelerationDueToGravity := -e.gravityZ / 100.0;
    var normalForce := p.mass * accelerationDueToGravity;
    assert e.Valid() ==> IsSafeNormal(e.safeNormal(Zero), Zero);
    ScaleOfZero(-1.0);
    ScaleOfZero(p.rollingResistanceCoef);
    ScaleOfZero(normalForce);
    Scale(Scale(Scale(e.safeNormal(v), -1.0), p.rollingResistanceCoef), normalForce)
  }

  /** The velocity after the net force has acted for the move's frame time. */
  function Accelerate(e: Engine, p: Params, s: KartState, m: Move): Vec3
    requires p.Valid()
  {
    var force := DrivingForce(e, p, s.transform, m.throttle);
    var force := Add(force, AirResistance(e, p, s.velocity));
    var force := Add(force, RollingResistance(e, p, s.velocity));
    var acceleration := Div(force, p.mass);
    Add(s.velocity, Scale(acceleration, m.deltaTime))
  }

  /**
   * The turning angle: distance covered along the forward axis divided by the
   * turning radius, times the steering input.
   */
  function RotationAngle(e: Engine, p: Params, s: KartState, deltaTime: real, steeringThrow: real): real
    requires p.Valid()
  {
    var deltaLocation := Dot(e.forward(s.transform), s.velocity) * deltaTime;
    deltaLocation / p.minTurningRadius * steeringThrow
  }

  /** Turns both the velocity and the kart about its up axis by the turning angle. */
  function Rotate(e: Engine, p: Params, s: KartState, deltaTime: real, steeringThrow: real): KartState
    requires p.Valid()
  {
    var angle := RotationAngle(e, p, s, deltaTime, steeringThrow);
    var axis := e.up(s.transform);
    KartState(e.addWorldRotation(s.transform, axis, angle), e.rotateVector(axis, angle, s.velocity))
  }

  /** The offset of one frame, in centimetres: velocity (m/s) times 100 times the frame time. */
  function Translation(v: Vec3, deltaTime: real): Vec3 {
    Scale(Scale(v, 100.0), deltaTime)
  }

  /** Sweeps the kart by the frame's translation; a blocking hit stops it dead. */
  function Translate(e: Engine, s: KartState, deltaTime: real): KartState {
    var sweep := e.sweep(s.transform, Translation(s.velocity, deltaTime));
    KartState(sweep.transform, if sweep.blockingHit then Zero else s.velocity)
  }

  /**
   * One move of the kart: accelerate, rotate, then translate.  The sweep
   * never turns the kart, so its final rotation is the rotation stage's;
   * without steering there is no rotation stage at all.
   */
  function Step(e: Engine, p: Params, s: KartState, m: Move): (r: KartState)
    requires p.Valid()
    ensures e.Valid() ==>
              r.transform.rotation
              == Rotate(e, p, KartState(s.transform, Accelerate(e, p, s, m)), m.deltaTime, m.steeringThrow).transform.rotation
    ensures e.Valid() && m.steeringThrow == 0.0 ==>
              r == Translate(e, KartState(s.transform, Accelerate(e, p, s, m)), m.deltaTime)
  {
    var accelerated := KartState(s.transform, Accelerate(e, p, s, m));
    Translate(e, Rotate(e, p, accelerated, m.deltaTime, m.steeringThrow), m.deltaTime)
  }

  /**
   * The state reached by stepping through `moves` in order, starting from
   * `s`: a non-empty queue ends with one Step of its last move from where
   * the rest of the queue got to.
   */
  function Replay(e: Engine, p: Params, s: KartState, moves: seq<Move>): (r: KartState)
    requires p.Valid()
    ensures moves == [] ==> r == s
    ensures moves != [] ==>
              r == Step(e, p, Replay(e, p, s, moves[..|moves| - 1]), moves[|moves| - 1])
    decreases |moves|
  {
    if moves == [] then s
    else
      assert |moves| > 1 ==> moves[..|moves| - 1][1..] == moves[1..][..|moves| - 2];
      Replay(e, p, Step(e, p, s, moves[0]), moves[1..])
  }

  // ---------------------------------------------------------------------
  // Forces

  lemma ScaleByNegated(n: Vec3, a: real, b: real)
    ensures Scale(Scale(Scale(n, -1.0), a), b) == Scale(n, -(a * b))
  {
  }

  /**
   * A moving kart meets air drag along the line of its motion, pointing
   * backwards, of magnitude |v|^2 times the drag coefficient.
   */
  lemma AirResistanceOpposesMotion(e: Engine, p: Params, v: Vec3)
    requires e.Valid() && v != Zero && p.dragCoef >= 0.0
    ensures Opposes(AirResistance(e, p, v), v)
    ensures SizeSquared(AirResistance(e, p, v)) == Square(SizeSquared(v) * p.dragCoef)
  {
    var n := e.safeNormal(v);
    assert IsSafeNormal(n, v);
    ScaleByNegated(n, SizeSquared(v), p.dragCoef);
    NonNegativeProduct(SizeSquared(v), p.dragCoef);
    OpposingForce(AirResistance(e, p, v), n, v, SizeSquared(v) * p.dragCoef);
  }

  /**
   * A moving kart meets rolling resistance along the line of its motion,
   * pointing backwards, of magnitude coefficient times mass times the
   * gravitational acceleration (in m/s^2).
   */
  lemma RollingResistanceOpposesMotion(e: Engine, p: Params, v: Vec3)
    requires e.Valid() && v != Zero
    requires p.rollingResistanceCoef * (p.mass * (-e.gravityZ / 100.0)) >= 0.0
    ensures Opposes(RollingResistance(e, p, v), v)
    ensures SizeSquared(RollingResistance(e, p, v))
         == Square(p.rollingResistanceCoef * (p.mass * (-e.gravityZ / 100.0)))
  {
    var n := e.safeNormal(v);
    assert IsSafeNormal(n, v);
    ScaleByNegated(n, p.rollingResistanceCoef, p.mass * (-e.gravityZ / 100.0));
    OpposingForce(RollingResistance(e, p, v), n, v, p.rollingResistanceCoef * (p.mass * (-e.gravityZ / 100.0)));
  }

  /**
   * With the default mass and driving force, full throttle for a tenth of a
   * second from rest gives the kart 1 m/s along its forward axis, before it
   * is rotated and swept.
   */
  lemma FullThrottleFromRest(e: Engine, s: KartState, m: Move)
    requires e.Valid()
    requires s.velocity == Zero && m.throttle == 1.0 && m.deltaTime == 0.1
    ensures Accelerate(e, DefaultParams(), s, m) == e.forward(s.transform)
  {
    var p := DefaultParams();
    FullThrottleArithmetic(e.forward(s.transform), s.velocity,
      AirResistance(e, p, s.velocity), RollingResistance(e, p, s.velocity));
  }

  /** The arithmetic of the full-throttle example, on plain vectors. */
  lemma FullThrottleArithmetic(forward: Vec3, v: Vec3, air: Vec3, rolling: Vec3)
    requires v == Zero && air == Zero && rolling == Zero
    ensures Add(v, Scale(Div(Add(Add(Scale(Scale(forward, 10000.0), 1.0), air), rolling), 1000.0), 0.1)) == forward
  {
  }

  /** With no throttle and no resistance, the net force and hence the change of velocity is zero. */
  lemma NoForceArithmetic(forward: Vec3, maxForce: real, v: Vec3, air: Vec3, rolling: Vec3, mass: real, deltaTime: real)
    requires v == Zero && air == Zero && rolling == Zero && mass != 0.0
    ensures Add(v, Scale(Div(Add(Add(Scale(Scale(forward, maxForce), 0.0), air), rolling), mass), deltaTime)) == Zero
  {
    ScaleByZero(Scale(forward, maxForce));
    assert Div(Zero, mass) == Zero;
    ScaleOfZero(deltaTime);
  }

  // ---------------------------------------------------------------------
  // Rotation and translation

  /** No steering, or no speed along the forward axis, means no turn at all. */
  lemma NoTurnWithoutSteeringOrSpeed(e: Engine, p: Params, s: KartState, deltaTime: real, steeringThrow: real)
    requires e.Valid() && p.Valid()
    requires steeringThrow == 0.0 || Dot(e.forward(s.transform), s.velocity) == 0.0
    ensures RotationAngle(e, p, s, deltaTime, steeringThrow) == 0.0
    ensures Rotate(e, p, s, deltaTime, steeringThrow) == s
  {
    var axis := e.up(s.transform);
    assert e.rotateVector(axis, 0.0, s.velocity) == s.velocity;
    assert e.addWorldRotation(s.transform, axis, 0.0) == s.transform;
  }

  /**
   * A blocking hit stops the kart; otherwise the kart keeps its velocity
   * and moves by velocity times 100 times the frame time (m/s to cm).
   */
  lemma TranslateMovesOrStops(e: Engine, s: KartState, deltaTime: real)
    requires e.Valid()
    ensures var r := Translate(e, s, deltaTime);
            if e.sweep(s.transform, Translation(s.velocity, deltaTime)).blockingHit
            then r.velocity == Zero
            else r.velocity == s.velocity
                 && r.transform.location == Add(s.transform.location, Scale(s.velocity, 100.0 * deltaTime))
    ensures Translate(e, s, deltaTime).transform.rotation == s.transform.rotation
  {
    var d := Translation(s.velocity, deltaTime);
    assert d == Scale(s.velocity, 100.0 * deltaTime);
    assert e.sweep(s.transform, d).transform.rotation == s.transform.rotation;
  }

  /** Released throttle at rest: no force acts, so the velocity stays zero. */
  lemma NoThrottleFromRest(e: Engine, p: Params, s: KartState, m: Move)
    requires e.Valid() && p.Valid()
    requires s.velocity == Zero && m.throttle == 0.0
    ensures Accelerate(e, p, s, m) == Zero
  {
    NoForceArithmetic(e.forward(s.transform), p.maxDrivingForce, s.velocity,
      AirResistance(e, p, s.velocity), RollingResistance(e, p, s.velocity), p.mass, m.deltaTime);
  }

  /** A kart at rest with the throttle released is still at rest after a move. */
  lemma StationaryKartStaysAtRest(e: Engine, p: Params, s: KartState, m: Move)
    requires e.Valid() && p.Valid()
    requires s.velocity == Zero && m.throttle == 0.0
    ensures Step(e, p, s, m).velocity == Zero
  {
    NoThrottleFromRest(e, p, s, m);
    var accelerated := KartState(s.transform, Accelerate(e, p, s, m));
    DotWithZero(e.forward(s.transform));
    NoTurnWithoutSteeringOrSpeed(e, p, accelerated, m.deltaTime, m.steeringThrow);
    TranslateMovesOrStops(e, accelerated, m.deltaTime);
  }

  /**
   * The example of a full-throttle, straight move from rest with the default
   * tuning: when the sweep is not blocked the kart ends up at 1 m/s forward.
   */
  lemma StraightFullThrottleStep(e: Engine, s: KartState, m: Move)
    requires e.Valid()
    requires s.velocity == Zero && m.throttle == 1.0 && m.steeringThrow == 0.0 && m.deltaTime == 0.1
    requires !e.sweep(s.transform, Translation(e.forward(s.transform), 0.1)).blockingHit
    ensures Step(e, DefaultParams(), s, m).velocity == e.forward(s.transform)
  {
    var p := DefaultParams();
    FullThrottleFromRest(e, s, m);
    var accelerated := KartState(s.transform, e.forward(s.transform));
    NoTurnWithoutSteeringOrSpeed(e, p, accelerated, m.deltaTime, m.steeringThrow);
    TranslateMovesOrStops(e, accelerated, m.deltaTime);
  }

  // ---------------------------------------------------------------------
  // Replay

  /** Replaying `a` and then `b` is replaying `a + b`. */
  lemma {:induction false} ReplayConcat(e: Engine, p: Params, s: KartState, a: seq<Move>, b: seq<Move>)
    requires p.Valid()
    ensures Replay(e, p, s, a + b) == Replay(e, p, Replay(e, p, s, a), b)
    decreases |a|
  {
    if a == [] {
      assert a + b == b;
    } else {
      assert (a + b)[1..] == a[1..] + b;
      ReplayConcat(e, p, Step(e, p, s, a[0]), a[1..], b);
    }
  }
}
