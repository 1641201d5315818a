/**
 * The kart's movement component: it holds the velocity and the driver's
 * inputs, and moves its owning actor one move at a time.  SimulateMove
 * updates the velocity and the owner's transform in place, step by step as
 * the engine code does; its postcondition ties the result to the pure
 * `MotionModel.Step`.
 */
module GoKartMovement {
  import opened Vectors
  import opened UnrealEngine
  import opened MotionModel

  class MovementComponent {
    /** The actor this component moves; its transform is the kart's transform. */
    const owner: Kart
    const params: Params

    /** The move most recently made and simulated by this component's own tick. */
    var lastMove: Move
    var velocity: Vec3
    var throttle: real
    var steeringThrow: real

    ghost predicate Valid() {
      params.Valid()
    }

    /** The kart's simulated state: the owner's transform and this component's velocity. */
    function State(): KartState
      reads this, owner
    {
      KartState(owner.transform, velocity)
    }

    /** A component starts at rest, with released controls and an all-zero last move. */
    constructor (owner: Kart, params: Params)
      ensures this.owner == owner && this.params == params
      ensures velocity == Zero && throttle == 0.0 && steeringThrow == 0.0
      ensures lastMove == Move(0.0, 0.0, 0.0, 0.0)
    {
      this.owner := owner;
      this.params := params;
      lastMove := Move(0.0, 0.0, 0.0, 0.0);
      velocity := Zero;
      throttle := 0.0;
      steeringThrow := 0.0;
    }

    function GetVelocity(): (v: Vec3)
      reads this
      ensures v == velocity
    {
      velocity
    }

    method SetVelocity(v: Vec3)
      modifies this
      ensures GetVelocity() == v
      ensures throttle == old(throttle) && steeringThrow == old(steeringThrow) && lastMove == old(lastMove)
    {
      velocity := v;
    }

    method SetThrottle(value: real)
      modifies this
      ensures throttle == value
      ensures velocity == old(velocity) && steeringThrow == old(steeringThrow) && lastMove == old(lastMove)
    {
      throttle := value;
    }

    method SetSteeringThrow(value: real)
      modifies this
      ensures steeringThrow == value
      ensures velocity == old(velocity) && throttle == old(throttle) && lastMove == old(lastMove)
    {
      steeringThrow := value;
    }

    function GetLastMove(): (m: Move)
      reads this
      ensures m == lastMove
    {
      lastMove
    }

    /**
     * The move for the current frame: the current inputs, the frame time and
     * the world clock.  It is valid exactly when both inputs are in range.
     */
    function CreateMove(deltaTime: real, worldTime: real): (m: Move)
      reads this
      ensures m.throttle == throttle && m.steeringThrow == steeringThrow
      ensures m.deltaTime == deltaTime && m.time == worldTime
      ensures m.IsValidMove() <==> Abs(throttle) <= 1.0 && Abs(steeringThrow) <= 1.0
    {
      Move(throttle, steeringThrow, deltaTime, worldTime)
    }

    /** Applies one move to the kart: accelerate, rotate, then sweep. */
    method SimulateMove(e: Engine, move: Move)
      requires Valid()
      modifies this, owner
      ensures State() == Step(e, params, old(State()), move)
      ensures throttle == old(throttle) && steeringThrow == old(steeringThrow) && lastMove == old(lastMove)
    {
      var force := Scale(Scale(e.forward(owner.transform), params.maxDrivingForce), move.throttle);
      force := Add(force, AirResistance(e, params, velocity));
      force := Add(force, RollingResistance(e, params, velocity));
      var acceleration := Div(force, params.mass);
      velocity := Add(velocity, Scale(acceleration, move.deltaTime));

      ApplyRotation(e, move.deltaTime, move.steeringThrow);

      UpdateLocationFromVelocity(e, move.deltaTime);
    }

    /** Turns the velocity and the owner about the owner's up axis. */
    method ApplyRotation(e: Engine, deltaTime: real, steering: real)
      requires Valid()
      modifies this, owner
      ensures State() == Rotate(e, params, old(State()), deltaTime, steering)
      ensures throttle == old(throttle) && steeringThrow == old(steeringThrow) && lastMove == old(lastMove)
    {
      var deltaLocation := Dot(e.forward(owner.transform), velocity) * deltaTime;
      var rotationAngle := deltaLocation / params.minTurningRadius * steering;
      assert rotationAngle == RotationAngle(e, params, State(), deltaTime, steering);
      var axis := e.up(owner.transform);

      velocity := e.rotateVector(axis, rotationAngle, velocity);

      owner.transform := e.addWorldRotation(owner.transform, axis, rotationAngle);
    }

    /** Sweeps the owner by the frame's translation; a blocking hit stops the kart. */
    method UpdateLocationFromVelocity(e: Engine, deltaTime: real)
      modifies this, owner
      ensures State() == Translate(e, old(State()), deltaTime)
      ensures throttle == old(throttle) && steeringThrow == old(steeringThrow) && lastMove == old(lastMove)
    {
      var translation := Scale(Scale(velocity, 100.0), deltaTime);

      var hit := e.sweep(owner.transform, translation);
      owner.transform := hit.transform;
      if hit.blockingHit {
        velocity := Zero;
      }
    }

    /**
     * The component's own tick: on the owning client, or on a server whose
     * remote copies are simulated proxies, it makes a move from the current
     * inputs, records it as the last move and simulates it; elsewhere it
     * does nothing.
     */
    method TickComponent(e: Engine, deltaTime: real, worldTime: real)
      requires Valid()
      modifies this, owner
      ensures owner.role == AutonomousProxy || owner.remoteRole == SimulatedProxy ==>
                && lastMove == old(CreateMove(deltaTime, worldTime))
                && State() == Step(e, params, old(State()), lastMove)
      ensures !(owner.role == AutonomousProxy || owner.remoteRole == SimulatedProxy) ==>
                lastMove == old(lastMove) && State() == old(State())
      ensures throttle == old(throttle) && steeringThrow == old(steeringThrow)
    {
      if owner.role == AutonomousProxy || owner.remoteRole == SimulatedProxy {
        lastMove := CreateMove(deltaTime, worldTime);
        SimulateMove(e, lastMove);
      }
    }
  }
}
