/**
 * The parts of the game engine that the kart's movement code calls but does
 * not define: actor transforms, the network role of an actor, quaternion
 * rotation, the swept move of an actor and the world's gravity.  Their
 * implementations are not part of this model; they are supplied as the
 * functions of an `Engine` value, and `Engine.Valid()` lists the only facts
 * about them the model relies on.
 */
module UnrealEngine {
  import opened Vectors

  /** A rotation, kept as the four components of a quaternion. */
  datatype Quat = Quat(x: real, y: real, z: real, w: real)

  /** An actor's placement in the world (FTransform). */
  datatype Transform = Transform(location: Vec3, rotation: Quat, scale: Vec3)

  /** The identity transform: at the origin, unrotated, unit scale. */
  const IdentityTransform := Transform(Zero, Quat(0.0, 0.0, 0.0, 1.0), Vec3(1.0, 1.0, 1.0))

  /** The network role of an actor on one machine (ENetRole). */
  datatype Role = RoleNone | SimulatedProxy | AutonomousProxy | Authority

  /** What a swept move of an actor reports: where it ended and whether it was blocked. */
  datatype SweepResult = SweepResult(transform: Transform, blockingHit: bool)

  /**
   * The engine services used by one step of the kart.
   *  - gravityZ: the world's gravity along Z (negative when it pulls down), in cm/s^2;
   *  - safeNormal: FVector::GetSafeNormal;
   *  - forward, up: the actor's forward and up vectors for a transform;
   *  - rotateVector(axis, angle, v): FQuat(axis, angle).RotateVector(v);
   *  - addWorldRotation(t, axis, angle): AddActorWorldRotation(FQuat(axis, angle));
   *  - sweep(t, offset): AddActorWorldOffset(offset) with sweeping enabled.
   */
  datatype Engine = Engine(
    gravityZ: real,
    safeNormal: Vec3 -> Vec3,
    forward: Transform -> Vec3,
    up: Transform -> Vec3,
    rotateVector: (Vec3, real, Vec3) -> Vec3,
    addWorldRotation: (Transform, Vec3, real) -> Transform,
    sweep: (Transform, Vec3) -> SweepResult)
  {
    /**
     * The engine facts the model uses: the safe normal of the zero vector is
     * zero and of any other vector is the unit vector pointing the same way
     * (exact arithmetic, no tolerance); a rotation by angle zero changes
     * neither a vector nor a transform; a swept move never rotates the actor
     * and, when nothing blocks it, moves the actor by the whole offset.
     */
    ghost predicate Valid() {
      && (forall v :: IsSafeNormal(safeNormal(v), v))
      && (forall axis, v :: rotateVector(axis, 0.0, v) == v)
      && (forall t, axis :: addWorldRotation(t, axis, 0.0) == t)
      && (forall t, d :: sweep(t, d).transform.rotation == t.rotation
                         && sweep(t, d).transform.scale == t.scale)
      && (forall t, d :: !sweep(t, d).blockingHit ==>
                           sweep(t, d).transform.location == Add(t.location, d))
    }
  }

  /** `n` is what GetSafeNormal returns for `v`, with an exact zero test. */
  ghost predicate IsSafeNormal(n: Vec3, v: Vec3) {
    && (v == Zero ==> n == Zero)
    && (v != Zero ==> SizeSquared(n) == 1.0 && Cross(n, v) == Zero && Dot(n, v) > 0.0)
  }

  /**
   * The actor that owns the movement components: its transform is updated in
   * place, its local and remote roles are fixed when it is spawned.
   */
  class Kart {
    var transform: Transform
    const role: Role
    const remoteRole: Role

    constructor (transform: Transform, role: Role, remoteRole: Role)
      ensures this.transform == transform && this.role == role && this.remoteRole == remoteRole
    {
      this.transform := transform;
      this.role := role;
      this.remoteRole := remoteRole;
    }
  }
}
