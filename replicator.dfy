/**
 * The movement replicator: client-side prediction with server
 * reconciliation.  The owning client simulates each move at once and keeps
 * it in a queue of moves the server has not yet acknowledged; the server
 * simulates the moves it receives and publishes a snapshot of the resulting
 * state together with the last move it applied.  When a snapshot arrives,
 * the client resets to it, drops every queued move the snapshot already
 * covers and replays the rest.
 */
module GoKartReplication {
  import opened Vectors
  import opened UnrealEngine
  import opened MotionModel
  import opened GoKartMovement

  datatype Option<T> = None | Some(value: T)

  /**
   * The replicated snapshot of the authoritative simulation: the last move
   * the server applied and the kart's transform and velocity after it.
   */
  datatype ServerState = ServerState(lastMove: Move, transform: Transform, velocity: Vec3)

  /** The kart state a snapshot describes. */
  function SnapshotState(s: ServerState): KartState {
    KartState(s.transform, s.velocity)
  }

  /** The moves of `moves` made strictly after `time`, in their original order. */
  function MovesAfter(moves: seq<Move>, time: real): (r: seq<Move>)
    ensures forall m :: m in r <==> m in moves && m.time > time
    ensures |r| <= |moves|
  {
    if moves == [] then []
    else if moves[0].time > time then [moves[0]] + MovesAfter(moves[1..], time)
    else MovesAfter(moves[1..], time)
  }

  /** `a` is `b` with some elements removed and the rest kept in order. */
  predicate IsSubsequence(a: seq<Move>, b: seq<Move>)
    decreases |b|
  {
    if a == [] then true
    else if b == [] then false
    else if a[0] == b[0] then IsSubsequence(a[1..], b[1..])
    else IsSubsequence(a, b[1..])
  }

  /** Move times never decrease along the queue. */
  predicate SortedByTime(moves: seq<Move>) {
    forall i, j :: 0 <= i < j < |moves| ==> moves[i].time <= moves[j].time
  }

  /** Move times strictly increase along the queue. */
  predicate StrictlySortedByTime(moves: seq<Move>) {
    forall i, j :: 0 <= i < j < |moves| ==> moves[i].time < moves[j].time
  }

  /** Pruning distributes over concatenation. */
  lemma {:induction false} MovesAfterConcat(a: seq<Move>, b: seq<Move>, time: real)
    ensures MovesAfter(a + b, time) == MovesAfter(a, time) + MovesAfter(b, time)
  {
    if a == [] {
      assert a + b == b;
    } else {
      var ab := a + b;
      assert ab[0] == a[0] && ab[1..] == a[1..] + b;
      MovesAfterConcat(a[1..], b, time);
      if a[0].time > time {
        calc {
          MovesAfter(ab, time);
          [a[0]] + MovesAfter(a[1..] + b, time);
          [a[0]] + (MovesAfter(a[1..], time) + MovesAfter(b, time));
          ([a[0]] + MovesAfter(a[1..], time)) + MovesAfter(b, time);
        }
      }
    }
  }

  /** Pruning keeps the surviving moves in their original order. */
  lemma {:induction false} MovesAfterIsSubsequence(moves: seq<Move>, time: real)
    ensures IsSubsequence(MovesAfter(moves, time), moves)
  {
    if moves != [] {
      MovesAfterIsSubsequence(moves[1..], time);
      var rest := MovesAfter(moves[1..], time);
      if moves[0].time > time {
        assert MovesAfter(moves, time) == [moves[0]] + rest;
        assert ([moves[0]] + rest)[1..] == rest;
      } else if rest != [] {
        assert rest[0] in rest;
        assert rest[0] != moves[0];
      }
    }
  }

  /** Pruning twice at the same time is pruning once. */
  lemma {:induction false} MovesAfterIdempotent(moves: seq<Move>, time: real)
    ensures MovesAfter(MovesAfter(moves, time), time) == MovesAfter(moves, time)
  {
    if moves != [] {
      MovesAfterIdempotent(moves[1..], time);
      if moves[0].time > time {
        var rest := MovesAfter(moves[1..], time);
        assert ([moves[0]] + rest)[1..] == rest;
      }
    }
  }

  /** Pruning a queue sorted by time leaves it sorted. */
  lemma {:induction false} MovesAfterKeepsSorted(moves: seq<Move>, time: real)
    requires SortedByTime(moves)
    ensures SortedByTime(MovesAfter(moves, time))
  {
    if moves != [] {
      SortedTail(moves);
      MovesAfterKeepsSorted(moves[1..], time);
      if moves[0].time > time {
        var rest := MovesAfter(moves[1..], time);
        forall m | m in rest
          ensures moves[0].time <= m.time
        {
          HeadIsEarliest(moves, m);
        }
        ConsKeepsSorted(moves[0], rest);
      }
    }
  }

  lemma SortedTail(moves: seq<Move>)
    requires SortedByTime(moves) && moves != []
    ensures SortedByTime(moves[1..])
  {
    forall i, j | 0 <= i < j < |moves[1..]|
      ensures moves[1..][i].time <= moves[1..][j].time
    {
      assert moves[1..][i] == moves[i + 1] && moves[1..][j] == moves[j + 1];
    }
  }

  lemma HeadIsEarliest(moves: seq<Move>, m: Move)
    requires SortedByTime(moves) && moves != [] && m in moves[1..]
    ensures moves[0].time <= m.time
  {
    var k :| 0 <= k < |moves[1..]| && moves[1..][k] == m;
    assert moves[k + 1] == m;
  }

  lemma ConsKeepsSorted(first: Move, rest: seq<Move>)
    requires SortedByTime(rest)
    requires forall m | m in rest :: first.time <= m.time
    ensures SortedByTime([first] + rest)
  {
    var r := [first] + rest;
    forall i, j | 0 <= i < j < |r|
      ensures r[i].time <= r[j].time
    {
      assert r[j] == rest[j - 1];
      if i > 0 {
        assert r[i] == rest[i - 1];
      }
    }
  }

  /** A queue in which no move is later than `time` is pruned away entirely. */
  lemma {:induction false} MovesAfterNone(moves: seq<Move>, time: real)
    requires forall i :: 0 <= i < |moves| ==> moves[i].time <= time
    ensures MovesAfter(moves, time) == []
  {
    if moves != [] {
      assert forall i :: 0 <= i < |moves[1..]| ==> moves[1..][i] == moves[i + 1];
      MovesAfterNone(moves[1..], time);
    }
  }

  /** A queue in which every move is later than `time` is kept whole. */
  lemma {:induction false} MovesAfterAll(moves: seq<Move>, time: real)
    requires forall i :: 0 <= i < |moves| ==> moves[i].time > time
    ensures MovesAfter(moves, time) == moves
  {
    if moves != [] {
      assert forall i :: 0 <= i < |moves[1..]| ==> moves[1..][i] == moves[i + 1];
      MovesAfterAll(moves[1..], time);
      assert [moves[0]] + moves[1..] == moves;
    }
  }

  /**
   * In a queue whose times strictly increase, acknowledging the k-th move
   * drops exactly the first k moves.
   */
  lemma MovesAfterAcknowledged(moves: seq<Move>, k: nat)
    requires StrictlySortedByTime(moves) && 0 < k <= |moves|
    ensures MovesAfter(moves, moves[k - 1].time) == moves[k..]
  {
    assert moves == moves[..k] + moves[k..];
    MovesAfterConcat(moves[..k], moves[k..], moves[k - 1].time);
    AcknowledgedPrefixDropped(moves, k);
    PendingSuffixKept(moves, k);
  }

  lemma AcknowledgedPrefixDropped(moves: seq<Move>, k: nat)
    requires StrictlySortedByTime(moves) && 0 < k <= |moves|
    ensures MovesAfter(moves[..k], moves[k - 1].time) == []
  {
    var done := moves[..k];
    forall i | 0 <= i < |done|
      ensures done[i].time <= moves[k - 1].time
    {
      assert done[i] == moves[i];
    }
    MovesAfterNone(done, moves[k - 1].time);
  }

  lemma PendingSuffixKept(moves: seq<Move>, k: nat)
    requires StrictlySortedByTime(moves) && 0 < k <= |moves|
    ensures MovesAfter(moves[k..], moves[k - 1].time) == moves[k..]
  {
    var pending := moves[k..];
    forall i | 0 <= i < |pending|
      ensures pending[i].time > moves[k - 1].time
    {
      assert pending[i] == moves[k + i];
    }
    MovesAfterAll(pending, moves[k - 1].time);
  }

  /** The queue [1.0, 1.5, 2.0] acknowledged at 1.5 keeps only the last move. */
  lemma ClearAtMiddleMove(m1: Move, m2: Move, m3: Move)
    requires m1.time == 1.0 && m2.time == 1.5 && m3.time == 2.0
    ensures MovesAfter([m1, m2, m3], m2.time) == [m3]
  {
    assert [m1, m2, m3][1..] == [m2, m3];
    assert [m2, m3][1..] == [m3];
    assert [m3][1..] == [];
  }

  /**
   * Reconciliation reproduces the prediction: if the client predicted the
   * whole queue from `start`, and the server acknowledges the k-th move with
   * the state reached after the first k moves, replaying the pruned queue
   * from that snapshot lands where the client's prediction did.
   */
  lemma ReconciliationMatchesPrediction(e: Engine, p: Params, start: KartState, moves: seq<Move>, k: nat)
    requires p.Valid()
    requires StrictlySortedByTime(moves) && 0 < k <= |moves|
    ensures Replay(e, p, Replay(e, p, start, moves[..k]), MovesAfter(moves, moves[k - 1].time))
            == Replay(e, p, start, moves)
  {
    MovesAfterAcknowledged(moves, k);
    assert moves == moves[..k] + moves[k..];
    ReplayConcat(e, p, start, moves[..k], moves[k..]);
  }

  /** Appending a move no earlier than the queue's last keeps the queue sorted. */
  lemma AppendKeepsSorted(moves: seq<Move>, m: Move)
    requires SortedByTime(moves)
    requires moves != [] ==> moves[|moves| - 1].time <= m.time
    ensures SortedByTime(moves + [m])
  {
    var r := moves + [m];
    forall i, j | 0 <= i < j < |r|
      ensures r[i].time <= r[j].time
    {
      if j == |moves| {
        assert r[i] == moves[i];
        if i < |moves| - 1 {
          assert moves[i].time <= moves[|moves| - 1].time;
        }
      } else {
        assert r[i] == moves[i] && r[j] == moves[j];
      }
    }
  }

  /** Appending a move strictly later than the queue's last keeps the times strictly increasing. */
  lemma AppendKeepsStrictlySorted(moves: seq<Move>, m: Move)
    requires StrictlySortedByTime(moves)
    requires moves != [] ==> moves[|moves| - 1].time < m.time
    ensures StrictlySortedByTime(moves + [m])
  {
    var r := moves + [m];
    forall i, j | 0 <= i < j < |r|
      ensures r[i].time < r[j].time
    {
      if j == |moves| {
        assert r[i] == moves[i];
        if i < |moves| - 1 {
          assert moves[i].time < moves[|moves| - 1].time;
        }
      } else {
        assert r[i] == moves[i] && r[j] == moves[j];
      }
    }
  }

  /**
   * Two queued moves with the same time: acknowledging the first also drops
   * the second, although the server has not applied it.
   */
  lemma ClearAtTiedTimes(a: Move, b: Move)
    requires a.time == b.time
    ensures MovesAfter([a, b], a.time) == []
  {
    assert [a, b][1..] == [b];
    assert [b][1..] == [];
  }

  /**
   * The server's check on an incoming move.  It accepts every move: the
   * range check of Move.IsValidMove is not applied here.
   */
  function ServerSendMoveValidate(move: Move): (accepted: bool)
    ensures accepted
  {
    true
  }

  class MovementReplicator {
    /** The actor whose movement is replicated. */
    const owner: Kart
    /** The owner's movement component, or null when the owner has none. */
    const movementComp: MovementComponent?
    /** Moves simulated locally and sent, not yet covered by a snapshot. */
    var unacknowledgedMoves: seq<Move>
    /** The latest authoritative snapshot (written on the server, received on clients). */
    var serverState: ServerState

    ghost predicate Valid()
      reads this, movementComp
    {
      movementComp != null ==> movementComp.owner == owner && movementComp.Valid()
    }

    constructor (owner: Kart, movementComp: MovementComponent?)
      requires movementComp != null ==> movementComp.owner == owner && movementComp.Valid()
      ensures Valid()
      ensures this.owner == owner && this.movementComp == movementComp
      ensures unacknowledgedMoves == []
      ensures serverState == ServerState(Move(0.0, 0.0, 0.0, 0.0), IdentityTransform, Zero)
    {
      this.owner := owner;
      this.movementComp := movementComp;
      unacknowledgedMoves := [];
      serverState := ServerState(Move(0.0, 0.0, 0.0, 0.0), IdentityTransform, Zero);
    }

    /**
     * One frame.  The owning client makes a move, predicts it, queues it and
     * returns it as the move to send to the server.  A server whose remote
     * copies are simulated proxies makes a move and applies it as the server
     * call would.  A simulated proxy extrapolates with the last move of the
     * snapshot.  Without a movement component nothing happens.
     */
    method TickComponent(e: Engine, deltaTime: real, worldTime: real) returns (sent: Option<Move>)
      requires Valid()
      modifies this, owner, movementComp
      ensures Valid()
      ensures movementComp == null ==>
                && sent == None && owner.transform == old(owner.transform)
                && unacknowledgedMoves == old(unacknowledgedMoves) && serverState == old(serverState)
      ensures movementComp != null && owner.role == AutonomousProxy
              && SortedByTime(old(unacknowledgedMoves))
              && (old(unacknowledgedMoves) != [] ==>
                    old(unacknowledgedMoves)[|old(unacknowledgedMoves)| - 1].time <= worldTime) ==>
                SortedByTime(unacknowledgedMoves)
      ensures movementComp != null && owner.role == AutonomousProxy
              && StrictlySortedByTime(old(unacknowledgedMoves))
              && (old(unacknowledgedMoves) != [] ==>
                    old(unacknowledgedMoves)[|old(unacknowledgedMoves)| - 1].time < worldTime) ==>
                StrictlySortedByTime(unacknowledgedMoves)
      ensures movementComp != null && owner.role == AutonomousProxy ==>
                && sent == Some(old(movementComp.CreateMove(deltaTime, worldTime)))
                && unacknowledgedMoves == old(unacknowledgedMoves) + [sent.value]
                && movementComp.State() == Step(e, movementComp.params, old(movementComp.State()), sent.value)
                && serverState == old(serverState)
      ensures movementComp != null && owner.role == Authority && owner.remoteRole == SimulatedProxy ==>
                var move := old(movementComp.CreateMove(deltaTime, worldTime));
                && sent == None
                && movementComp.State() == Step(e, movementComp.params, old(movementComp.State()), move)
                && serverState == ServerState(move, owner.transform, movementComp.velocity)
                && unacknowledgedMoves == old(unacknowledgedMoves)
      ensures movementComp != null && owner.role == SimulatedProxy ==>
                && sent == None
                && movementComp.State() == Step(e, movementComp.params, old(movementComp.State()), serverState.lastMove)
                && serverState == old(serverState) && unacknowledgedMoves == old(unacknowledgedMoves)
      ensures movementComp != null && owner.role == RoleNone ==>
                && sent == None && movementComp.State() == old(movementComp.State())
                && serverState == old(serverState) && unacknowledgedMoves == old(unacknowledgedMoves)
      ensures movementComp != null && owner.role == Authority && owner.remoteRole != SimulatedProxy ==>
                && sent == None && movementComp.State() == old(movementComp.State())
                && serverState == old(serverState) && unacknowledgedMoves == old(unacknowledgedMoves)
      ensures movementComp != null ==>
                && movementComp.throttle == old(movementComp.throttle)
                && movementComp.steeringThrow == old(movementComp.steeringThrow)
                && movementComp.lastMove == old(movementComp.lastMove)
    {
      sent := None;
      if movementComp == null {
        return;
      }

      if owner.role == AutonomousProxy {
        var move := movementComp.CreateMove(deltaTime, worldTime);
        movementComp.SimulateMove(e, move);
        if SortedByTime(unacknowledgedMoves)
           && (unacknowledgedMoves != [] ==> unacknowledgedMoves[|unacknowledgedMoves| - 1].time <= move.time) {
          AppendKeepsSorted(unacknowledgedMoves, move);
        }
        if StrictlySortedByTime(unacknowledgedMoves)
           && (unacknowledgedMoves != [] ==> unacknowledgedMoves[|unacknowledgedMoves| - 1].time < move.time) {
          AppendKeepsStrictlySorted(unacknowledgedMoves, move);
        }
        unacknowledgedMoves := unacknowledgedMoves + [move];
        sent := Some(move);
      }

      if owner.role == Authority && owner.remoteRole == SimulatedProxy {
        var move := movementComp.CreateMove(deltaTime, worldTime);
        var _ := ServerSendMove(e, move);
      }

      if owner.role == SimulatedProxy {
        movementComp.SimulateMove(e, serverState.lastMove);
      }
    }

    /**
     * A new snapshot has arrived: reset the kart to it, drop the moves it
     * acknowledges and replay the remaining ones on top of it.
     */
    method OnRepServerState(e: Engine)
      requires Valid()
      modifies this, owner, movementComp
      ensures Valid() && serverState == old(serverState)
      ensures movementComp == null ==>
                owner.transform == old(owner.transform) && unacknowledgedMoves == old(unacknowledgedMoves)
      ensures movementComp != null ==>
                && unacknowledgedMoves == MovesAfter(old(unacknowledgedMoves), serverState.lastMove.time)
                && movementComp.State()
                   == Replay(e, movementComp.params, SnapshotState(serverState), unacknowledgedMoves)
                && movementComp.throttle == old(movementComp.throttle)
                && movementComp.steeringThrow == old(movementComp.steeringThrow)
                && movementComp.lastMove == old(movementComp.lastMove)
      ensures movementComp != null && unacknowledgedMoves == [] ==>
                movementComp.State() == SnapshotState(serverState)
    {
      if movementComp == null {
        return;
      }

      owner.transform := serverState.transform;
      movementComp.SetVelocity(serverState.velocity);

      ClearAcknowledgedMoves(serverState.lastMove);

      var i := 0;
      while i < |unacknowledgedMoves|
        invariant 0 <= i <= |unacknowledgedMoves|
        invariant serverState == old(serverState)
        invariant unacknowledgedMoves == MovesAfter(old(unacknowledgedMoves), serverState.lastMove.time)
        invariant movementComp.State()
                  == Replay(e, movementComp.params, SnapshotState(serverState), unacknowledgedMoves[..i])
        invariant movementComp.throttle == old(movementComp.throttle)
        invariant movementComp.steeringThrow == old(movementComp.steeringThrow)
        invariant movementComp.lastMove == old(movementComp.lastMove)
      {
        var move := unacknowledgedMoves[i];
        movementComp.SimulateMove(e, move);
        assert unacknowledgedMoves[..i + 1][..i] == unacknowledgedMoves[..i];
        i := i + 1;
      }
      assert unacknowledgedMoves[..i] == unacknowledgedMoves;
    }

    /** Keeps only the queued moves made after `lastMove`, in order. */
    method ClearAcknowledgedMoves(lastMove: Move)
      modifies this
      ensures unacknowledgedMoves == MovesAfter(old(unacknowledgedMoves), lastMove.time)
      ensures serverState == old(serverState)
    {
      var newMoves: seq<Move> := [];

      var i := 0;
      while i < |unacknowledgedMoves|
        invariant 0 <= i <= |unacknowledgedMoves|
        invariant unacknowledgedMoves == old(unacknowledgedMoves) && serverState == old(serverState)
        invariant newMoves == MovesAfter(unacknowledgedMoves[..i], lastMove.time)
      {
        var move := unacknowledgedMoves[i];
        if move.time > lastMove.time {
          newMoves := newMoves + [move];
        }
        MovesAfterConcat(unacknowledgedMoves[..i], [move], lastMove.time);
        assert unacknowledgedMoves[..i + 1] == unacknowledgedMoves[..i] + [move];
        i := i + 1;
      }
      assert unacknowledgedMoves[..i] == unacknowledgedMoves;

      unacknowledgedMoves := newMoves;
    }

    /**
     * The server applies a move received from the owning client and records
     * the resulting snapshot; the queue of unacknowledged moves is untouched.
     */
    method ServerSendMoveImplementation(e: Engine, move: Move)
      requires Valid()
      modifies this, owner, movementComp
      ensures Valid() && unacknowledgedMoves == old(unacknowledgedMoves)
      ensures movementComp == null ==>
                serverState == old(serverState) && owner.transform == old(owner.transform)
      ensures movementComp != null ==>
                && movementComp.State() == Step(e, movementComp.params, old(movementComp.State()), move)
                && serverState == ServerState(move, owner.transform, movementComp.velocity)
                && movementComp.throttle == old(movementComp.throttle)
                && movementComp.steeringThrow == old(movementComp.steeringThrow)
                && movementComp.lastMove == old(movementComp.lastMove)
    {
      if movementComp == null {
        return;
      }

      movementComp.SimulateMove(e, move);

      serverState := serverState.(lastMove := move);
      serverState := serverState.(transform := owner.transform);
      serverState := serverState.(velocity := movementComp.GetVelocity());
    }

    /**
     * The server side of the move call: the move is validated and, when
     * accepted, applied.  Since validation accepts every move, every move is
     * applied.
     */
    method ServerSendMove(e: Engine, move: Move) returns (accepted: bool)
      requires Valid()
      modifies this, owner, movementComp
      ensures accepted
      ensures Valid() && unacknowledgedMoves == old(unacknowledgedMoves)
      ensures movementComp == null ==>
                serverState == old(serverState) && owner.transform == old(owner.transform)
      ensures movementComp != null ==>
                && movementComp.State() == Step(e, movementComp.params, old(movementComp.State()), move)
                && serverState == ServerState(move, owner.transform, movementComp.velocity)
                && movementComp.throttle == old(movementComp.throttle)
                && movementComp.steeringThrow == old(movementComp.steeringThrow)
                && movementComp.lastMove == old(movementComp.lastMove)
    {
      accepted := ServerSendMoveValidate(move);
      if accepted {
        ServerSendMoveImplementation(e, move);
      }
    }

    /** The engine delivers a new snapshot to a client and notifies it. */
    method ReceiveServerState(e: Engine, snapshot: ServerState)
      requires Valid()
      modifies this, owner, movementComp
      ensures Valid() && serverState == snapshot
      ensures movementComp == null ==>
                owner.transform == old(owner.transform) && unacknowledgedMoves == old(unacknowledgedMoves)
      ensures movementComp != null ==>
                && unacknowledgedMoves == MovesAfter(old(unacknowledgedMoves), snapshot.lastMove.time)
                && movementComp.State()
                   == Replay(e, movementComp.params, SnapshotState(snapshot), unacknowledgedMoves)
                && movementComp.throttle == old(movementComp.throttle)
                && movementComp.steeringThrow == old(movementComp.steeringThrow)
                && movementComp.lastMove == old(movementComp.lastMove)
      ensures movementComp != null && unacknowledgedMoves == [] ==>
                movementComp.State() == SnapshotState(snapshot)
    {
      serverState := snapshot;
      OnRepServerState(e);
    }
  }

  /**
   * One frame on the owning client: the engine ticks the kart's movement
   * component and its replicator, each of which makes a move from the same
   * inputs and clock and simulates it.  The kart therefore takes two Steps
   * of the move, while only one copy is queued and sent to the server.
   * Both moves are equal, so the order of the two ticks does not matter.
   */
  method OwningClientFrame(e: Engine, replicator: MovementReplicator, deltaTime: real, worldTime: real)
    returns (sent: Option<Move>)
    requires replicator.Valid() && replicator.movementComp != null
    requires replicator.owner.role == AutonomousProxy
    modifies replicator, replicator.owner, replicator.movementComp
    ensures replicator.Valid()
    ensures var comp := replicator.movementComp;
            var move := old(comp.CreateMove(deltaTime, worldTime));
            && sent == Some(move)
            && comp.lastMove == move
            && replicator.unacknowledgedMoves == old(replicator.unacknowledgedMoves) + [move]
            && comp.State() == Step(e, comp.params, Step(e, comp.params, old(comp.State()), move), move)
    ensures replicator.serverState == old(replicator.serverState)
    ensures replicator.movementComp.throttle == old(replicator.movementComp.throttle)
    ensures replicator.movementComp.steeringThrow == old(replicator.movementComp.steeringThrow)
  {
    var comp := replicator.movementComp;
    comp.TickComponent(e, deltaTime, worldTime);
    sent := replicator.TickComponent(e, deltaTime, worldTime);
  }
}
