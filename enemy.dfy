/**
 * EnemyMove: a patrolling enemy. `nextMove` is its walking direction in
 * {-1, 0, 1}; a self-rescheduling Think callback picks a new direction,
 * and the per-tick edge probe turns the enemy round at a ledge.
 *
 * `EnemyState` is the value of the script's discrete state; the class
 * `EnemyMove` updates the same state in place and its methods are tied to
 * the step functions below.
 */
module Enemy {
  import opened Timers

  datatype EnemyState = EnemyState(
    nextMove: int,
    flipX: bool,
    flipY: bool,
    translucent: bool,
    colliderEnabled: bool,
    active: bool,
    pending: seq<Invocation>)

  /** A freshly placed enemy: standing still, facing left, visible and solid, nothing scheduled. */
  const Spawned := EnemyState(0, false, false, false, true, true, [])

  /** Random.Range(2f, 5f): the delay before the next Think. */
  predicate ThinkDelay(d: real) {
    2.0 <= d <= 5.0
  }

  /** Random.Range(-1, 2): a direction. */
  predicate Direction(m: int) {
    -1 <= m <= 1
  }

  function AwakeOf(e: EnemyState): EnemyState {
    e.(pending := e.pending + [Invocation(Think, 5.0)])
  }

  /** Think with the random choices `move` and `delay`. */
  function ThinkOf(e: EnemyState, move: int, delay: real): EnemyState {
    e.(nextMove := move,
       flipX := if move != 0 then move == 1 else e.flipX,
       pending := e.pending + [Invocation(Think, delay)])
  }

  /** turn: reverse, face the new direction, cancel everything pending, think again in 2. */
  function TurnOf(e: EnemyState): EnemyState {
    e.(nextMove := -e.nextMove,
       flipX := -e.nextMove == 1,
       pending := [Invocation(Think, 2.0)])
  }

  /** The discrete part of one FixedUpdate: turn iff the probe ahead finds no platform. */
  function TickOf(e: EnemyState, platformHit: bool): EnemyState {
    if platformHit then e else TurnOf(e)
  }

  /** OnDamaged: death pose, no collider, deactivation scheduled in 5. */
  function StompedOf(e: EnemyState): EnemyState {
    e.(translucent := true, flipY := true, colliderEnabled := false,
       pending := e.pending + [Invocation(DeActive, 5.0)])
  }

  function DeActiveOf(e: EnemyState): EnemyState {
    e.(active := false)
  }

  /** Turning twice restores the direction; the direction stays in {-1, 0, 1}. */
  lemma TurnTwice(e: EnemyState)
    ensures TurnOf(TurnOf(e)).nextMove == e.nextMove
    ensures Direction(e.nextMove) ==> Direction(TurnOf(e).nextMove)
    ensures TurnOf(e).flipX <==> e.nextMove == -1
  {
  }

  /** After a turn the only thing pending is one Think, 2 from now, whatever was pending before. */
  lemma TurnResetsTimers(e: EnemyState)
    ensures TurnOf(e).pending == [Invocation(Think, 2.0)]
    ensures Named(TurnOf(e).pending, DeActive) == []
  {
  }

  /** Think moves in {-1, 0, 1} and keeps the facing when it chooses to stand still. */
  lemma ThinkFacing(e: EnemyState, move: int, delay: real)
    requires Direction(move) && ThinkDelay(delay)
    ensures Direction(ThinkOf(e, move, delay).nextMove)
    ensures move == 0 ==> ThinkOf(e, move, delay).flipX == e.flipX
    ensures move != 0 ==> (ThinkOf(e, move, delay).flipX <==> move == 1)
    ensures |Named(ThinkOf(e, move, delay).pending, Think)| == |Named(e.pending, Think)| + 1
  {
    NamedConcat(e.pending, [Invocation(Think, delay)], Think);
  }

  // ---------------------------------------------------------------- runs

  /** What reaches the enemy: a physics tick, a stomp from the player, or the engine firing pending invocation `index`. */
  datatype EnemyEvent =
    | Tick(platformHit: bool)
    | Stomped
    | Fire(index: nat, move: int, delay: real)

  /** The random choices a Fire event carries are those Random.Range can return. */
  predicate InRange(ev: EnemyEvent) {
    ev.Fire? ==> Direction(ev.move) && ThinkDelay(ev.delay)
  }

  /** The engine fires pending invocation `i`: it leaves the pending list and its callback runs. */
  function FireOf(e: EnemyState, i: nat, move: int, delay: real): EnemyState {
    if i < |e.pending| then
      var rest := e.(pending := Remove(e.pending, i));
      match e.pending[i].callback
      case Think => ThinkOf(rest, move, delay)
      case DeActive => DeActiveOf(rest)
      case OffDamaged => rest
    else e
  }

  function StepOf(e: EnemyState, ev: EnemyEvent): EnemyState {
    match ev
    case Tick(hit) => TickOf(e, hit)
    case Stomped => StompedOf(e)
    case Fire(i, move, delay) => FireOf(e, i, move, delay)
  }

  function RunOf(e: EnemyState, evs: seq<EnemyEvent>): EnemyState
    decreases |evs|
  {
    if evs == [] then e else RunOf(StepOf(e, evs[0]), evs[1..])
  }

  /** A patrolling enemy walks in {-1, 0, 1} and has exactly one Think pending. */
  predicate Patrolling(e: EnemyState) {
    Direction(e.nextMove) && |Named(e.pending, Think)| == 1
  }

  /** Awake starts the patrol of a freshly placed enemy. */
  lemma AwakeStartsPatrol()
    ensures Patrolling(AwakeOf(Spawned))
    ensures AwakeOf(Spawned).pending == [Invocation(Think, 5.0)]
  {
  }

  lemma StepKeepsPatrol(e: EnemyState, ev: EnemyEvent)
    requires Patrolling(e) && InRange(ev)
    ensures Patrolling(StepOf(e, ev))
  {
    match ev
    case Tick(hit) =>
      if !hit {
        assert Named(TurnOf(e).pending, Think) == [Invocation(Think, 2.0)];
      }
    case Stomped =>
      NamedConcat(e.pending, [Invocation(DeActive, 5.0)], Think);
    case Fire(i, move, delay) =>
      if i < |e.pending| {
        NamedAfterRemove(e.pending, i, Think);
        var rest := e.(pending := Remove(e.pending, i));
        if e.pending[i].callback == Think {
          ThinkFacing(rest, move, delay);
        }
      }
  }

  /**
   * The think cycle never dies and never doubles: whatever ticks, stomps
   * and firings follow, exactly one Think stays pending and the direction
   * stays in {-1, 0, 1}.
   */
  lemma {:induction false} PatrolInvariant(e: EnemyState, evs: seq<EnemyEvent>)
    requires Patrolling(e)
    requires forall k :: 0 <= k < |evs| ==> InRange(evs[k])
    ensures Patrolling(RunOf(e, evs))
    decreases |evs|
  {
    if evs != [] {
      StepKeepsPatrol(e, evs[0]);
      PatrolInvariant(StepOf(e, evs[0]), evs[1..]);
    }
  }

  /**
   * A turn cancels a pending DeActive too: a stomped enemy whose edge probe
   * then misses is no longer scheduled to disappear.
   */
  lemma EdgeTurnCancelsDeActive(e: EnemyState)
    ensures Named(StompedOf(e).pending, DeActive) != []
    ensures Named(TickOf(StompedOf(e), false).pending, DeActive) == []
    ensures TickOf(StompedOf(e), false).active == e.active
  {
  }

  /** Without a pending DeActive, no tick or firing deactivates the enemy or schedules one. */
  lemma StepWithoutDeActive(e: EnemyState, ev: EnemyEvent)
    requires Named(e.pending, DeActive) == [] && !ev.Stomped?
    ensures Named(StepOf(e, ev).pending, DeActive) == []
    ensures StepOf(e, ev).active == e.active
  {
    match ev {
      case Tick(hit) =>
        if !hit {
          assert Named(TurnOf(e).pending, DeActive) == [];
        }
      case Fire(i, move, delay) =>
        if i < |e.pending| {
          NamedAfterRemove(e.pending, i, DeActive);
          assert e.pending[i] in e.pending;
          if e.pending[i].callback == Think {
            NamedConcat(Remove(e.pending, i), [Invocation(Think, delay)], DeActive);
          }
        }
    }
  }

  /**
   * With no DeActive pending and no further stomp, nothing ever deactivates
   * the enemy, whatever ticks and firings follow.
   */
  lemma {:induction false} StaysActiveWithoutDeActive(e: EnemyState, evs: seq<EnemyEvent>)
    requires Named(e.pending, DeActive) == []
    requires forall k :: 0 <= k < |evs| ==> !evs[k].Stomped?
    ensures Named(RunOf(e, evs).pending, DeActive) == []
    ensures RunOf(e, evs).active == e.active
    decreases |evs|
  {
    if evs != [] {
      StepWithoutDeActive(e, evs[0]);
      StaysActiveWithoutDeActive(StepOf(e, evs[0]), evs[1..]);
    }
  }

  // ---------------------------------------------------------------- the behaviour

  class EnemyMove {
    /** Horizontal velocity, owned by the physics engine. */
    var vx: real
    var nextMove: int
    var flipX: bool
    var flipY: bool
    var translucent: bool
    var colliderEnabled: bool
    var active: bool
    var pending: seq<Invocation>

    function Model(): EnemyState
      reads this
    {
      EnemyState(nextMove, flipX, flipY, translucent, colliderEnabled, active, pending)
    }

    /** The enemy as placed in the scene, at rest. */
    constructor ()
      ensures Model() == Spawned && vx == 0.0
    {
      vx := 0.0;
      nextMove := 0;
      flipX, flipY, translucent := false, false, false;
      colliderEnabled, active := true, true;
      pending := [];
    }

    method Awake()
      modifies this`pending
      ensures pending == old(pending) + [Invocation(Callback.Think, 5.0)]
      ensures Model() == AwakeOf(old(Model()))
    {
      pending := pending + [Invocation(Callback.Think, 5.0)];
    }

    /** One physics tick; `platformHit` is whether the ray down from 0.2 ahead met a platform within 1. */
    method FixedUpdate(platformHit: bool)
      modifies this`vx, this`nextMove, this`flipX, this`pending
      ensures vx == old(nextMove) as real
      ensures Model() == TickOf(old(Model()), platformHit)
      ensures platformHit ==> nextMove == old(nextMove) && flipX == old(flipX) && pending == old(pending)
      ensures !platformHit ==> nextMove == -old(nextMove) && pending == [Invocation(Callback.Think, 2.0)]
    {
      vx := nextMove as real;
      if !platformHit {
        Turn();
      }
    }

    method Think()
      modifies this`nextMove, this`flipX, this`pending
      ensures Direction(nextMove)
      ensures nextMove == 0 ==> flipX == old(flipX)
      ensures nextMove != 0 ==> (flipX <==> nextMove == 1)
      ensures |pending| == |old(pending)| + 1 && pending[..|old(pending)|] == old(pending)
      ensures pending[|old(pending)|].callback == Callback.Think && ThinkDelay(pending[|old(pending)|].delay)
      ensures Model() == ThinkOf(old(Model()), nextMove, pending[|old(pending)|].delay)
    {
      var move :| Direction(move);
      nextMove := move;
      if nextMove != 0 {
        flipX := nextMove == 1;
      }
      assert ThinkDelay(2.0);
      var nextThinkTime :| ThinkDelay(nextThinkTime);
      pending := pending + [Invocation(Callback.Think, nextThinkTime)];
    }

    method Turn()
      modifies this`nextMove, this`flipX, this`pending
      ensures nextMove == -old(nextMove)
      ensures flipX <==> nextMove == 1
      ensures pending == [Invocation(Callback.Think, 2.0)]
      ensures Model() == TurnOf(old(Model()))
    {
      nextMove := -nextMove;
      flipX := nextMove == 1;
      pending := [];
      pending := pending + [Invocation(Callback.Think, 2.0)];
    }

    /** Stomped by the player. */
    method OnDamaged()
      modifies this`translucent, this`flipY, this`colliderEnabled, this`pending
      ensures translucent && flipY && !colliderEnabled
      ensures pending == old(pending) + [Invocation(Callback.DeActive, 5.0)]
      ensures Model() == StompedOf(old(Model()))
    {
      translucent := true;
      flipY := true;
      colliderEnabled := false;
      pending := pending + [Invocation(Callback.DeActive, 5.0)];
    }

    method DeActive()
      modifies this`active
      ensures !active
      ensures Model() == DeActiveOf(old(Model()))
    {
      active := false;
    }
  }
}
