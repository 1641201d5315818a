# KrazyKarts movement and replication, modelled in Dafny

This project models how KrazyKarts moves a networked go-kart. It covers client-side prediction and server reconciliation.

- `UGoKartMovementComp` holds the kart's velocity and the driver's inputs. Each move it:
  - applies the driving force, air drag and rolling resistance to the velocity;
  - turns the kart about its up axis;
  - sweeps the kart forward, stopping it on a blocking hit.
- `UGoKartMovementReplicator` keeps the moves the owning client has predicted but the server has not yet acknowledged.
  - The server applies each move it receives. It records a snapshot: the last move applied, plus the transform and velocity after it.
  - When a client receives a snapshot, it resets the kart to that snapshot. It then drops every queued move no later than the snapshot's move and replays the rest.

Files:

- `vectors.dfy` (module `Vectors`): FVector arithmetic over the reals, and when one force opposes a velocity.
- `engine.dfy` (module `UnrealEngine`): transforms, network roles and the owning actor (`Kart`).
  - Engine services are supplied as the functions of an `Engine` value: the safe normal, forward and up vectors, quaternion rotation, the swept move and gravity.
  - `Engine.Valid()` lists the only facts the model assumes about these services.
- `motion_model.dfy` (module `MotionModel`):
  - the move record `Move` and the kart's tuning `Params`;
  - the pure one-move step `Step` and its fold `Replay`, with the physical properties of one step.
- `go_kart_movement.dfy` (module `GoKartMovement`): the movement component as a class.
  - It updates its velocity and its owner's transform in place.
  - Each simulation method's postcondition ties the new state to `Step` or to one of its parts.
- `replicator.dfy` (module `GoKartReplication`): the replicator as a class.
  - Queue pruning is specified by the pure `MovesAfter`.
  - The lemma `ReconciliationMatchesPrediction` is about the replay arithmetic, for a client that takes exactly one Step per queued move:
    - suppose the queue's move times strictly increase;
    - suppose the server acknowledges the k-th move with the state reached after the first k moves;
    - then replaying the pruned queue from that snapshot ends where one Step per move of the whole queue ends.
  - Strictly increasing times matter. Clearing keeps only moves strictly later than the acknowledged one (GoKartMovementReplicator.cpp:79). So when two queued moves share a time, acknowledging the first also drops the second, which the server has not applied (`ClearAtTiedTimes`).
  - The owning client's tick keeps the queue's times strictly increasing whenever each frame's world time is strictly later than the last queued move's.

What the code does, stated directly:

- `Server_SendMove_Validate` is a stub marked "TODO: Make better validation" that accepts every move (`ServerSendMoveValidate` is `true`). `IsValidMove` exists but is not called on this path.
- The server puts no bound on the time a client claims to have simulated.
- There is no interpolation between snapshots: a simulated proxy re-applies the snapshot's last move every frame.

The program as written does not meet the one-Step-per-move premise on the owning client:

- The movement component's own tick creates and simulates a move on an autonomous proxy (GoKartMovementComp.cpp:32-36).
- The replicator's tick then creates the same move again and simulates it a second time, queueing and sending one copy (GoKartMovementReplicator.cpp:38-44).
- `OwningClientFrame` composes the two tick contracts: after one frame the kart is at `Step(Step(s, m), m)` while the queue grows by the single move `m`.
- The server applies each received move once, and so does the replay of the queue.
- So the client's own prediction generally differs from the replayed state, and `ReconciliationMatchesPrediction` does not describe the client as written.
- `CreateMove` is declared private in GoKartMovementComp.h:87, yet the replicator calls it (GoKartMovementReplicator.cpp:38 and :50). The code as shown would not compile. Together with the double simulation, this suggests a code base caught partway through moving move creation from the component to the replicator. The model follows the code as written.
- The same double simulation happens on a server that drives its own kart (remote role simulated proxy): the component tick simulates the move, then the replicator's tick applies it again as a server move.

## Model

| member | source | states |
|---|---|---|
| MotionModel.Move.IsValidMove | KrazyKarts/Source/KrazyKarts/Public/GoKartMovementComp.h:26 | a move is valid exactly when both throttle and steering lie in [-1, 1] |
| MotionModel.DefaultParams | KrazyKarts/Source/KrazyKarts/Public/GoKartMovementComp.h:59-77 | the default mass, driving force, turning radius, drag and rolling coefficients are all positive, so the step's divisions are defined |
| GoKartMovement.MovementComponent.GetVelocity | KrazyKarts/Source/KrazyKarts/Public/GoKartMovementComp.h:48 | returns the current velocity and changes nothing |
| GoKartMovement.MovementComponent.SetVelocity | KrazyKarts/Source/KrazyKarts/Public/GoKartMovementComp.h:50 | sets the velocity; throttle, steering and last move are unchanged |
| GoKartMovement.MovementComponent.SetThrottle | KrazyKarts/Source/KrazyKarts/Public/GoKartMovementComp.h:52 | sets the throttle; velocity, steering and last move are unchanged |
| GoKartMovement.MovementComponent.SetSteeringThrow | KrazyKarts/Source/KrazyKarts/Public/GoKartMovementComp.h:54 | sets the steering; velocity, throttle and last move are unchanged |
| GoKartMovement.MovementComponent.GetLastMove | KrazyKarts/Source/KrazyKarts/Public/GoKartMovementComp.h:56 | returns the last move and changes nothing |
| GoKartMovement.MovementComponent.TickComponent | KrazyKarts/Source/KrazyKarts/Private/GoKartMovementComp.cpp:28-37 | on an autonomous proxy, or where the remote role is simulated proxy, the last move becomes the move made from the current inputs and the state advances by one Step of it; elsewhere nothing changes |
| GoKartMovement.MovementComponent.SimulateMove | KrazyKarts/Source/KrazyKarts/Private/GoKartMovementComp.cpp:39-54 | the kart's new transform and velocity are Step of the old state and the move; inputs and last move are unchanged |
| GoKartMovement.MovementComponent.CreateMove | KrazyKarts/Source/KrazyKarts/Private/GoKartMovementComp.cpp:56-65 | the move carries the current throttle and steering, the frame time and the world time; it is valid exactly when both inputs are in range |
| MotionModel.AirResistance | KrazyKarts/Source/KrazyKarts/Private/GoKartMovementComp.cpp:67-70 | a kart at rest feels no air drag, whatever the safe normal of zero is |
| MotionModel.AirResistanceOpposesMotion | KrazyKarts/Source/KrazyKarts/Private/GoKartMovementComp.cpp:67-70 | for a moving kart with a non-negative drag coefficient, drag points against the velocity and its magnitude is speed squared times the drag coefficient |
| MotionModel.RollingResistance | KrazyKarts/Source/KrazyKarts/Private/GoKartMovementComp.cpp:72-78 | a kart at rest feels no rolling resistance |
| MotionModel.RollingResistanceOpposesMotion | KrazyKarts/Source/KrazyKarts/Private/GoKartMovementComp.cpp:72-78 | for a moving kart, when the coefficient times mass times (-gravityZ/100) is non-negative, rolling resistance points against the velocity with exactly that magnitude |
| MotionModel.FullThrottleFromRest | KrazyKarts/Source/KrazyKarts/Private/GoKartMovementComp.cpp:41-49 | with the default tuning, full throttle from rest for 0.1 s gives a velocity of exactly the forward vector (1 m/s) |
| MotionModel.NoThrottleFromRest | KrazyKarts/Source/KrazyKarts/Private/GoKartMovementComp.cpp:41-49 | a kart at rest with zero throttle gains no velocity |
| MotionModel.NoTurnWithoutSteeringOrSpeed | KrazyKarts/Source/KrazyKarts/Private/GoKartMovementComp.cpp:80-90 | with zero steering or no forward speed, the turning angle is zero and the rotation leaves the state unchanged |
| GoKartMovement.MovementComponent.ApplyRotation | KrazyKarts/Source/KrazyKarts/Private/GoKartMovementComp.cpp:80-90 | the velocity and the owner's rotation are turned by forward-distance / turning radius * steering about the up axis |
| MotionModel.TranslateMovesOrStops | KrazyKarts/Source/KrazyKarts/Private/GoKartMovementComp.cpp:92-100 | a blocking hit zeroes the velocity; otherwise the velocity is kept and the kart moves by velocity * 100 * dt centimetres; the rotation is kept either way |
| GoKartMovement.MovementComponent.UpdateLocationFromVelocity | KrazyKarts/Source/KrazyKarts/Private/GoKartMovementComp.cpp:92-100 | the new state is the swept translation of the old one |
| MotionModel.Step | KrazyKarts/Source/KrazyKarts/Private/GoKartMovementComp.cpp:39-54 | the sweep never turns the kart, so its final rotation is the rotation stage's; with zero steering the move is acceleration followed by the sweep, with no rotation |
| MotionModel.StationaryKartStaysAtRest | KrazyKarts/Source/KrazyKarts/Private/GoKartMovementComp.cpp:39-54 | a kart at rest with zero throttle is still at rest after a whole move |
| MotionModel.StraightFullThrottleStep | KrazyKarts/Source/KrazyKarts/Private/GoKartMovementComp.cpp:39-54 | with the default tuning, from rest, full throttle, no steering, 0.1 s and an unblocked sweep, the kart ends the move at 1 m/s along its forward vector |
| MotionModel.Replay | KrazyKarts/Source/KrazyKarts/Private/GoKartMovementReplicator.cpp:67-70 | replaying the empty queue leaves the state unchanged; replaying a non-empty queue is one Step of its last move after replaying the rest |
| MotionModel.ReplayConcat | KrazyKarts/Source/KrazyKarts/Private/GoKartMovementReplicator.cpp:67-70 | replaying two queues one after the other is replaying their concatenation |
| GoKartReplication.MovementReplicator.TickComponent | KrazyKarts/Source/KrazyKarts/Private/GoKartMovementReplicator.cpp:30-56 | per role: an autonomous proxy predicts the new move, appends exactly it to the queue and sends it; a server with simulated remotes applies the new move and records the snapshot; a simulated proxy steps with the snapshot's last move; otherwise, and with no movement component, nothing changes; a sorted queue stays sorted when the world time is no earlier than its last move, and a strictly increasing one stays strictly increasing when the world time is strictly later |
| GoKartReplication.OwningClientFrame | KrazyKarts/Source/KrazyKarts/Private/GoKartMovementReplicator.cpp:36-45 | one frame on the owning client, where the movement component's tick (GoKartMovementComp.cpp:32-36) and the replicator's tick both run: the kart takes two Steps of the same move while the queue gains that move once and it is sent once; the snapshot and the inputs are unchanged |
| GoKartReplication.MovementReplicator.OnRepServerState | KrazyKarts/Source/KrazyKarts/Private/GoKartMovementReplicator.cpp:58-71 | the queue becomes the moves after the snapshot's move; the kart's state is the Replay of that queue from the snapshot; an empty queue leaves the kart exactly at the snapshot; the snapshot is not changed; with no movement component nothing changes |
| GoKartReplication.ReconciliationMatchesPrediction | KrazyKarts/Source/KrazyKarts/Private/GoKartMovementReplicator.cpp:58-71 | for a queue with strictly increasing times, replaying the pruned queue from the state after the acknowledged k-th move equals replaying the whole queue from the start |
| GoKartReplication.MovementReplicator.ReceiveServerState | KrazyKarts/Source/KrazyKarts/Private/GoKartMovementReplicator.cpp:58-71 | a delivered snapshot is stored; the queue is pruned and the kart ends at the Replay of it from the snapshot, exactly at the snapshot when nothing is left; the inputs and last move are untouched; with no movement component neither the queue nor the transform changes |
| GoKartReplication.MovementReplicator.ClearAcknowledgedMoves | KrazyKarts/Source/KrazyKarts/Private/GoKartMovementReplicator.cpp:73-83 | the queue becomes MovesAfter of the old queue at the given move's time; the snapshot is unchanged |
| GoKartReplication.MovesAfter | KrazyKarts/Source/KrazyKarts/Private/GoKartMovementReplicator.cpp:77-80 | a move survives exactly when it was in the queue and its time is later than the acknowledged time; the result is no longer than the queue |
| GoKartReplication.MovesAfterIsSubsequence | KrazyKarts/Source/KrazyKarts/Private/GoKartMovementReplicator.cpp:73-83 | the surviving moves keep their original order (a subsequence of the queue) |
| GoKartReplication.MovesAfterIdempotent | KrazyKarts/Source/KrazyKarts/Private/GoKartMovementReplicator.cpp:73-83 | clearing twice at the same move is clearing once |
| GoKartReplication.MovesAfterKeepsSorted | KrazyKarts/Source/KrazyKarts/Private/GoKartMovementReplicator.cpp:73-83 | clearing a queue sorted by time leaves it sorted |
| GoKartReplication.MovesAfterConcat | KrazyKarts/Source/KrazyKarts/Private/GoKartMovementReplicator.cpp:73-83 | clearing distributes over concatenation of queues |
| GoKartReplication.MovesAfterAcknowledged | KrazyKarts/Source/KrazyKarts/Private/GoKartMovementReplicator.cpp:73-83 | in a queue with strictly increasing times, acknowledging the k-th move drops exactly the first k moves |
| GoKartReplication.ClearAtMiddleMove | KrazyKarts/Source/KrazyKarts/Private/GoKartMovementReplicator.cpp:73-83 | the queue with times 1.0, 1.5, 2.0 cleared at 1.5 keeps only the move at 2.0 |
| GoKartReplication.ClearAtTiedTimes | KrazyKarts/Source/KrazyKarts/Private/GoKartMovementReplicator.cpp:79 | two queued moves with the same time are both dropped when the first is acknowledged |
| GoKartReplication.AppendKeepsStrictlySorted | KrazyKarts/Source/KrazyKarts/Private/GoKartMovementReplicator.cpp:42 | appending a move strictly later than the last queued one keeps the times strictly increasing |
| GoKartReplication.AppendKeepsSorted | KrazyKarts/Source/KrazyKarts/Private/GoKartMovementReplicator.cpp:42 | appending a move no earlier than the last queued one keeps the queue sorted by time |
| GoKartReplication.MovementReplicator.ServerSendMoveImplementation | KrazyKarts/Source/KrazyKarts/Private/GoKartMovementReplicator.cpp:85-94 | the server's state advances by one Step of the move; the snapshot becomes this move with the resulting transform and velocity; the queue is untouched; with no movement component nothing changes |
| GoKartReplication.ServerSendMoveValidate | KrazyKarts/Source/KrazyKarts/Private/GoKartMovementReplicator.cpp:96-100 | every move is accepted, valid or not |
| GoKartReplication.MovementReplicator.ServerSendMove | KrazyKarts/Source/KrazyKarts/Private/GoKartMovementReplicator.cpp:85-100 | the move is accepted and applied as by the implementation |

## Left out

- Floating point: every `float` is a real number. Rounding is not modelled, and `GetSafeNormal` uses an exact zero test instead of its tolerance.
- Engine services are parameters, not implementations. These are the square root behind the safe normal, quaternion rotation, the actor's forward and up vectors, the collision sweep and the world's gravity and clock. `Engine.Valid()` assumes exactly these facts about them:
  - the safe normal of the zero vector is zero;
  - the safe normal of any other vector is a unit vector on that vector's line, pointing the same way;
  - rotating a vector by angle zero leaves it unchanged, and so does adding a world rotation of angle zero to a transform;
  - every sweep, blocked or not, keeps the actor's rotation and scale;
  - a sweep with no blocking hit moves the actor by the whole offset.
- The sweep's `blockingHit` stands for `Hit.IsValidBlockingHit()` (GoKartMovementComp.cpp:99). A sweep that starts in penetration reports no valid blocking hit, yet the engine may not move the actor by the whole offset. The last assumption above does not describe that case, and the location clause of `TranslateMovesOrStops` rests on it.
- `Params.Valid()` requires a non-zero mass and turning radius. The code divides by both and relies on the editor-set values being non-zero.
- GoKartMovementReplicator.h is not part of this model. The snapshot's fields (last move, transform, velocity) are inferred from their use in the .cpp file.
- Network transport: `Server_SendMove` called on an owning client is returned from the replicator's tick as the move to send. Delivery of moves and snapshots is left to the caller: `ServerSendMove` and `ReceiveServerState` are the receiving ends.
- Replication registration, constructors, `BeginPlay`, the lookup of the movement component and the tick scheduling are not modelled. The replicator's movement component is a constructor argument that may be null.
- GoKart.h/.cpp, the pawn and its input bindings, are not modelled. Inputs reach the component through its setters.
- Concurrency: each participant is single-threaded, and the model treats one call at a time.
- MotionModel.AirResistanceOpposesMotion: it assumes a non-negative drag coefficient. The code accepts any editor value.
- MotionModel.RollingResistanceOpposesMotion: it assumes that the coefficient times the normal force is non-negative, which holds for downward gravity and positive mass. The code accepts any value.
