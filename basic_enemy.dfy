/** `BasicEnemy`: an enemy that idles, patrols, chases the nearest player and
    punches it when in range. The per-frame decision is the pure `Step` over
    the AI fields (`Brain`), given what the frame shows (`Frame`); the
    `PatrolBehavior` coroutine is the pure `PatrolLoop` / `ResumePatrolStep`
    between its `yield`s; the class applies both to its own fields. Movement
    and the animator's timing are outside this model. */
module BasicEnemies {
  import opened Common
  import opened Enemies

  datatype EnemyState = Idle | Patrolling | Chasing | Attacking

  /** A player object as seen this frame: its identity, whether it is active
      in the hierarchy, its distance from the enemy, and whether it has a
      `Health` component. */
  datatype PlayerView = PlayerView(id: nat, active: bool, distance: real, hasHealth: bool)

  /** What a frame offers: `Time.time`, `Time.deltaTime`, the player objects
      that still exist, the enemy's agent speed, and whether the agent has no
      path or is within `patrolPointDistance` of its end. */
  datatype Frame = Frame(time: real, deltaTime: real, players: seq<PlayerView>, agentSpeed: real,
                         atPatrolPoint: bool)

  /** The serialized tuning values. */
  datatype Tuning = Tuning(detectionRadius: real, enablePatrol: bool, attackRange: real,
                           attackCooldown: real, chaseTimeout: real, movementThreshold: real)

  const DefaultTuning := Tuning(10.0, true, 2.0, 1.5, 2.0, 0.2)

  /** `float.MaxValue`. */
  const FloatMax: real := 340282346638528859811704183484516925440.0

  /** Where the `PatrolBehavior` coroutine is: not suspended (never started,
      finished, or stopped), inside the 2-second wait at a patrol point, or
      inside the 0.1-second wait that ends each pass of its loop. */
  datatype PatrolPhase = NotSuspended | PointWait | TickWait

  /** The coroutine's position and the two fields it owns, `isPatrolling`
      and `isWaitingAtPatrolPoint`. */
  datatype Patrol = Patrol(phase: PatrolPhase, isPatrolling: bool, waitingAtPoint: bool)

  /** The AI fields the state handlers and the patrol read and write.
      `patrolRunning` is `patrolCoroutine != null`, which stays set after the
      coroutine finishes on its own. */
  datatype Brain = Brain(state: EnemyState, target: Option<nat>, patrolRunning: bool,
                         timeSinceLastChase: real, lastAttackTime: real, patrol: Patrol)
  // ---------------------------------------------------------------------------
  // FindNearestPlayer
  // ---------------------------------------------------------------------------

  /** A player `FindNearestPlayer` may pick. `FindGameObjectsWithTag` only
      returns active objects. */
  predicate InReach(p: PlayerView, radius: real) {
    p.active && p.distance <= radius
  }

  /** The loop of `FindNearestPlayer` from index `i`, with the closest distance
      and the index of the closest player so far (-1 for none). */
  function NearestFrom(ps: seq<PlayerView>, radius: real, i: nat, closest: real, found: int): (r: int)
    requires i <= |ps| && -1 <= found < |ps|
    ensures -1 <= r < |ps|
    decreases |ps| - i
  {
    if i == |ps| then found
    else if ps[i].active && ps[i].distance < closest && ps[i].distance <= radius then
      NearestFrom(ps, radius, i + 1, ps[i].distance, i)
    else
      NearestFrom(ps, radius, i + 1, closest, found)
  }

  /** The index of the player `FindNearestPlayer` picks, or -1. */
  function NearestIndex(ps: seq<PlayerView>, radius: real): int {
    NearestFrom(ps, radius, 0, FloatMax, -1)
  }

  /** The loop keeps: the player found so far is the first of the closest
      players in reach among those scanned. */
  predicate NearestSoFar(ps: seq<PlayerView>, radius: real, i: nat, closest: real, found: int)
    requires i <= |ps| && -1 <= found < |ps|
  {
    && (found == -1 ==> closest == FloatMax && forall k :: 0 <= k < i ==> !InReach(ps[k], radius))
    && (found >= 0 ==>
          && found < i && InReach(ps[found], radius) && ps[found].distance == closest
          && (forall k :: 0 <= k < i && InReach(ps[k], radius) ==> closest <= ps[k].distance)
          && (forall k :: 0 <= k < found && InReach(ps[k], radius) ==> closest < ps[k].distance))
  }

  /** Finishing the scan from a state that `NearestSoFar` describes ends in
      one that it describes for the whole list. */
  lemma {:induction false} NearestFromFacts(ps: seq<PlayerView>, radius: real, i: nat, closest: real, found: int)
    requires i <= |ps| && -1 <= found < |ps| && radius < FloatMax
    requires NearestSoFar(ps, radius, i, closest, found)
    ensures var r := NearestFrom(ps, radius, i, closest, found);
      NearestSoFar(ps, radius, |ps|, if r == -1 then FloatMax else ps[r].distance, r)
    decreases |ps| - i
  {
    if i < |ps| {
      if ps[i].active && ps[i].distance < closest && ps[i].distance <= radius {
        NearestFromFacts(ps, radius, i + 1, ps[i].distance, i);
      } else {
        NearestFromFacts(ps, radius, i + 1, closest, found);
      }
    }
  }

  /** `FindNearestPlayer` picks nobody exactly when no active player is within
      the detection radius; otherwise it picks an active player in reach that
      is at least as close as every other one, and strictly closer than every
      one before it (the first of equally close players). */
  lemma NearestIndexFacts(ps: seq<PlayerView>, radius: real)
    requires radius < FloatMax
    ensures var r := NearestIndex(ps, radius);
      && (r == -1 <==> forall k :: 0 <= k < |ps| ==> !InReach(ps[k], radius))
      && (r >= 0 ==>
            && InReach(ps[r], radius)
            && (forall k :: 0 <= k < |ps| && InReach(ps[k], radius) ==> ps[r].distance <= ps[k].distance)
            && (forall k :: 0 <= k < r && InReach(ps[k], radius) ==> ps[r].distance < ps[k].distance))
  {
    NearestFromFacts(ps, radius, 0, FloatMax, -1);
  }

  /** `targetPlayer` after `FindNearestPlayer`. */
  function Nearest(ps: seq<PlayerView>, radius: real): Option<nat> {
    var r := NearestIndex(ps, radius);
    if 0 <= r < |ps| then Some(ps[r].id) else None
  }

  // ---------------------------------------------------------------------------
  // The state handlers
  // ---------------------------------------------------------------------------

  /** The target as the frame shows it; a destroyed object (one no longer in
      the frame) compares equal to null. */
  function Lookup(ps: seq<PlayerView>, target: Option<nat>): (v: Option<PlayerView>)
    ensures v.Some? ==> target.Some? && v.value in ps && v.value.id == target.value
    ensures v.None? ==> target.None? || forall k :: 0 <= k < |ps| ==> ps[k].id != target.value
  {
    if target.None? || |ps| == 0 then None
    else if ps[0].id == target.value then Some(ps[0])
    else Lookup(ps[1..], target)
  }

  /** The target is there and active. */
  predicate Engaged(f: Frame, target: Option<nat>) {
    var v := Lookup(f.players, target);
    v.Some? && v.value.active
  }


  // ---------------------------------------------------------------------------
  // PatrolBehavior
  // ---------------------------------------------------------------------------

  /** The brain after a stretch of the coroutine, and whether it called
      `SetIdleAnimation`. */
  datatype PatrolOut = PatrolOut(brain: Brain, idlePose: bool)

  /** One pass of `PatrolBehavior` from its `while` test to its next `yield`.
      `live` is the rest of the loop condition: an enabled agent and a living
      enemy. A present target ends the coroutine (`yield break`); an agent at
      its patrol point that is not already waiting there turns the enemy Idle
      for the 2-second wait; otherwise the pass ends in the 0.1-second wait. */
  function PatrolLoop(b: Brain, t: Tuning, f: Frame, live: bool): (r: PatrolOut)
    ensures r.brain.target == b.target && r.brain.patrolRunning == b.patrolRunning
    ensures r.brain.timeSinceLastChase == b.timeSinceLastChase && r.brain.lastAttackTime == b.lastAttackTime
    ensures r.brain.patrol.phase == NotSuspended <==>
      !(b.patrol.isPatrolling && live) || Lookup(f.players, b.target).Some?
    ensures r.brain.patrol.isPatrolling <==>
      b.patrol.isPatrolling && !(live && Lookup(f.players, b.target).Some?)
    ensures r.brain.patrol.phase == PointWait <==>
      b.patrol.isPatrolling && live && Lookup(f.players, b.target).None? && f.atPatrolPoint && !b.patrol.waitingAtPoint
    ensures r.brain.patrol.phase == PointWait ==> r.brain.state == Idle && r.brain.patrol.waitingAtPoint
    ensures r.brain.patrol.phase != PointWait ==>
      r.brain.state == b.state && r.brain.patrol.waitingAtPoint == b.patrol.waitingAtPoint
    ensures r.idlePose <==>
      r.brain.patrol.phase == TickWait && f.agentSpeed <= t.movementThreshold && !b.patrol.waitingAtPoint
  {
    var p := b.patrol;
    if !(p.isPatrolling && live) then PatrolOut(b.(patrol := p.(phase := NotSuspended)), false)
    else if Lookup(f.players, b.target).Some? then
      PatrolOut(b.(patrol := p.(phase := NotSuspended, isPatrolling := false)), false)
    else if f.atPatrolPoint && !p.waitingAtPoint then
      PatrolOut(b.(state := Idle, patrol := p.(phase := PointWait, waitingAtPoint := true)), false)
    else
      PatrolOut(b.(patrol := p.(phase := TickWait)), f.agentSpeed <= t.movementThreshold && !p.waitingAtPoint)
  }

  /** The end of the 2-second wait: the state becomes Patrolling whatever it
      became meanwhile, the flag drops, a new point is chosen, and the pass
      ends in the 0.1-second wait. */
  function PatrolAfterPointWait(b: Brain, t: Tuning, f: Frame): (r: PatrolOut)
    ensures r.brain.state == Patrolling && r.brain.patrol.phase == TickWait && !r.brain.patrol.waitingAtPoint
    ensures r.brain.patrol.isPatrolling == b.patrol.isPatrolling
    ensures r.brain.target == b.target && r.brain.patrolRunning == b.patrolRunning
    ensures r.brain.timeSinceLastChase == b.timeSinceLastChase && r.brain.lastAttackTime == b.lastAttackTime
    ensures r.idlePose <==> f.agentSpeed <= t.movementThreshold
  {
    PatrolOut(b.(state := Patrolling, patrol := b.patrol.(phase := TickWait, waitingAtPoint := false)),
              f.agentSpeed <= t.movementThreshold)
  }

  /** The suspended coroutine resumes: after the point wait it goes on from
      there, after the tick wait it tests the loop again. */
  function ResumePatrolStep(b: Brain, t: Tuning, f: Frame, live: bool): (r: PatrolOut)
    requires b.patrol.phase != NotSuspended
    ensures r.brain.target == b.target && r.brain.patrolRunning == b.patrolRunning
    ensures b.patrol.phase == PointWait ==> r.brain.state == Patrolling && r.brain.patrol.phase == TickWait
  {
    if b.patrol.phase == PointWait then PatrolAfterPointWait(b, t, f) else PatrolLoop(b, t, f, live)
  }

  /** `patrolCoroutine = StartCoroutine(PatrolBehavior())`: the handle is set,
      `isPatrolling` is raised, and the body runs to its first `yield`. */
  function StartPatrol(b: Brain, t: Tuning, f: Frame, live: bool): (r: PatrolOut)
    ensures r.brain.patrolRunning && r.brain.target == b.target
    ensures r.brain.patrol.phase == NotSuspended <==> !live || Lookup(f.players, b.target).Some?
    ensures r.brain.patrol.isPatrolling <==> !(live && Lookup(f.players, b.target).Some?)
  {
    PatrolLoop(b.(patrolRunning := true, patrol := b.patrol.(isPatrolling := true)), t, f, live)
  }

  // ---------------------------------------------------------------------------
  // The state handlers
  // ---------------------------------------------------------------------------

  /** `HandleIdleState()`. */
  function HandleIdle(b: Brain, t: Tuning, f: Frame): (r: Brain)
    requires b.state == Idle
    ensures r.patrolRunning == b.patrolRunning && r.patrol == b.patrol
    ensures r.timeSinceLastChase == b.timeSinceLastChase && r.lastAttackTime == b.lastAttackTime
    ensures Lookup(f.players, b.target).Some? ==> r.target == b.target
    ensures Lookup(f.players, b.target).None? ==> r.target == Nearest(f.players, t.detectionRadius)
    ensures r.state == Chasing <==> Lookup(f.players, r.target).Some?
    ensures r.state == Patrolling <==> Lookup(f.players, r.target).None? && t.enablePatrol && !b.patrolRunning
    ensures r.state == Idle <==> Lookup(f.players, r.target).None? && !(t.enablePatrol && !b.patrolRunning)
  {
    var target := if Lookup(f.players, b.target).None? then Nearest(f.players, t.detectionRadius) else b.target;
    if Lookup(f.players, target).Some? then b.(target := target, state := Chasing)
    else if t.enablePatrol && !b.patrolRunning then b.(target := target, state := Patrolling)
    else b.(target := target)
  }

  /** `HandlePatrollingState()`: start the patrol when there is no handle,
      then stop it and chase when a target is present. Starting runs the
      coroutine to its first `yield`, which may already turn the enemy Idle. */
  function HandlePatrolling(b: Brain, t: Tuning, f: Frame, live: bool): (r: Brain)
    requires b.state == Patrolling
    ensures r.target == b.target && r.timeSinceLastChase == b.timeSinceLastChase
    ensures r.lastAttackTime == b.lastAttackTime
    ensures Lookup(f.players, b.target).Some? ==>
      r.state == Chasing && !r.patrolRunning && r.patrol.phase == NotSuspended
      && r.patrol.waitingAtPoint == b.patrol.waitingAtPoint
      && r.patrol.isPatrolling == (if b.patrolRunning then b.patrol.isPatrolling else !live)
    ensures Lookup(f.players, b.target).None? && b.patrolRunning ==> r == b
    ensures Lookup(f.players, b.target).None? && !b.patrolRunning ==>
      r.patrolRunning && r.patrol.isPatrolling
      && (r.patrol.phase == NotSuspended <==> !live)
      && (r.state == Idle <==> live && f.atPatrolPoint && !b.patrol.waitingAtPoint)
      && (r.state != Idle ==> r.state == Patrolling)
    ensures r.patrol.phase == PointWait && b.patrol.phase != PointWait ==>
      !b.patrolRunning && !b.patrol.waitingAtPoint && r.patrol.waitingAtPoint && r.state == Idle
    ensures r.patrol.phase != PointWait ==> r.patrol.waitingAtPoint == b.patrol.waitingAtPoint
  {
    var s := if !b.patrolRunning then StartPatrol(b, t, f, live).brain else b;
    if Lookup(f.players, b.target).Some? then
      s.(patrolRunning := false, patrol := s.patrol.(phase := NotSuspended), state := Chasing)
    else s
  }

  /** `HandleChasingState()`. */
  function HandleChasing(b: Brain, t: Tuning, f: Frame): (r: Brain)
    requires b.state == Chasing
    ensures r.target == b.target && r.patrolRunning == b.patrolRunning && r.patrol == b.patrol
    ensures r.lastAttackTime == b.lastAttackTime
    ensures !Engaged(f, b.target) ==>
      r.timeSinceLastChase == b.timeSinceLastChase + f.deltaTime
      && (r.state == Patrolling <==> r.timeSinceLastChase >= t.chaseTimeout)
      && (r.state == Chasing <==> r.timeSinceLastChase < t.chaseTimeout)
    ensures Engaged(f, b.target) ==>
      r.timeSinceLastChase == 0.0
      && (r.state == Attacking <==> Lookup(f.players, b.target).value.distance <= t.attackRange)
      && (r.state == Chasing <==> Lookup(f.players, b.target).value.distance > t.attackRange)
  {
    var v := Lookup(f.players, b.target);
    if v.None? || !v.value.active then
      var waited := b.timeSinceLastChase + f.deltaTime;
      b.(timeSinceLastChase := waited, state := if waited >= t.chaseTimeout then Patrolling else Chasing)
    else
      b.(timeSinceLastChase := 0.0, state := if v.value.distance <= t.attackRange then Attacking else Chasing)
  }

  /** `HandleAttackingState()`: the new brain, and whether `AttackPlayer` ran. */
  function HandleAttacking(b: Brain, t: Tuning, f: Frame): (r: (Brain, bool))
    requires b.state == Attacking
    ensures r.0.target == b.target && r.0.patrolRunning == b.patrolRunning && r.0.patrol == b.patrol
    ensures r.0.timeSinceLastChase == b.timeSinceLastChase
    ensures !Engaged(f, b.target) ==> r.0.state == Idle && !r.1
    ensures Engaged(f, b.target) && Lookup(f.players, b.target).value.distance > t.attackRange ==>
      r.0.state == Chasing && !r.1
    ensures r.1 <==> Engaged(f, b.target) && Lookup(f.players, b.target).value.distance <= t.attackRange
                     && f.time >= b.lastAttackTime + t.attackCooldown
    ensures r.0.lastAttackTime == if r.1 then f.time else b.lastAttackTime
    ensures r.1 ==> r.0.state == Attacking
  {
    var v := Lookup(f.players, b.target);
    if v.None? || !v.value.active then (b.(state := Idle), false)
    else if v.value.distance > t.attackRange then (b.(state := Chasing), false)
    else if f.time >= b.lastAttackTime + t.attackCooldown then (b.(lastAttackTime := f.time), true)
    else (b, false)
  }

  /** The `switch` of `Update()`: the new brain and whether the enemy swung.
      `live` is whether the agent is enabled (the enemy is alive here). */
  function Step(b: Brain, t: Tuning, f: Frame, live: bool): (Brain, bool)
  {
    match b.state
    case Idle => (HandleIdle(b, t, f), false)
    case Patrolling => (HandlePatrolling(b, t, f, live), false)
    case Chasing => (HandleChasing(b, t, f), false)
    case Attacking => HandleAttacking(b, t, f)
  }

  /** An idle enemy that can see an active player within its radius starts
      chasing this very frame. */
  lemma IdleSpotsPlayer(b: Brain, t: Tuning, f: Frame, live: bool)
    requires b.state == Idle && t.detectionRadius < FloatMax
    requires Lookup(f.players, b.target).None?
    requires exists k :: 0 <= k < |f.players| && InReach(f.players[k], t.detectionRadius)
    ensures Step(b, t, f, live).0.state == Chasing
  {
    var ps := f.players;
    NearestIndexFacts(ps, t.detectionRadius);
    var r := NearestIndex(ps, t.detectionRadius);
    LookupFinds(ps, r);
  }

  /** Looking up the identity of a listed player finds a player with it. */
  lemma {:induction false} LookupFinds(ps: seq<PlayerView>, r: int)
    requires 0 <= r < |ps|
    ensures Lookup(ps, Some(ps[r].id)).Some?
  {
    if ps[0].id != ps[r].id {
      LookupFinds(ps[1..], r - 1);
    }
  }

  /** A run of frames: the final brain and the times at which the enemy
      swung. */
  function Run(b: Brain, t: Tuning, live: bool, frames: seq<Frame>): (Brain, seq<real>)
    decreases |frames|
  {
    if frames == [] then (b, [])
    else
      var step := Step(b, t, frames[0], live);
      var rest := Run(step.0, t, live, frames[1..]);
      (rest.0, (if step.1 then [frames[0].time] else []) + rest.1)
  }

  /** The attack cooldown holds over any run, whatever the clock does: the
      first swing comes `attackCooldown` after the last recorded attack, each
      later swing `attackCooldown` after the one before, and the recorded time
      is that of the last swing. */
  lemma {:induction false} SwingsAreSpaced(b: Brain, t: Tuning, live: bool, frames: seq<Frame>)
    ensures var (b', swings) := Run(b, t, live, frames);
      && (|swings| > 0 ==> swings[0] >= b.lastAttackTime + t.attackCooldown)
      && (forall j :: 0 < j < |swings| ==> swings[j] >= swings[j - 1] + t.attackCooldown)
      && b'.lastAttackTime == if |swings| == 0 then b.lastAttackTime else swings[|swings| - 1]
    decreases |frames|
  {
    if frames != [] {
      var step := Step(b, t, frames[0], live);
      assert step.0.lastAttackTime == if step.1 then frames[0].time else b.lastAttackTime;
      SwingsAreSpaced(step.0, t, live, frames[1..]);
    }
  }

  /** A patrol that ended on its own (`yield break` or a failed loop test)
      leaves `patrolCoroutine` set, so `HandlePatrollingState` never starts
      another: a Patrolling enemy with no target present stays exactly as it
      is, frame after frame, with no patrol running. */
  lemma {:induction false} FinishedPatrolStalls(b: Brain, t: Tuning, live: bool, frames: seq<Frame>)
    requires b.state == Patrolling && b.patrolRunning && b.patrol.phase == NotSuspended
    requires forall k :: 0 <= k < |frames| ==> Lookup(frames[k].players, b.target).None?
    ensures Run(b, t, live, frames) == (b, [])
    decreases |frames|
  {
    if frames != [] {
      assert Step(b, t, frames[0], live) == (b, false);
      assert forall k :: 0 <= k < |frames| - 1 ==> frames[1..][k] == frames[k + 1];
      FinishedPatrolStalls(b, t, live, frames[1..]);
      var rest := Run(b, t, live, frames[1..]);
      assert [] + rest.1 == rest.1;
      assert Run(b, t, live, frames) == (rest.0, [] + rest.1);
    }
  }

  /** A player spotted during the 2-second wait makes the Idle handler chase,
      but the wait's end writes Patrolling over Chasing; the next frame that
      still shows the target stops the patrol and chases again. */
  lemma ChaseOverwrittenByPatrol(b: Brain, t: Tuning, f1: Frame, f2: Frame, live: bool)
    requires b.state == Chasing && b.patrolRunning && b.patrol.phase == PointWait
    requires Lookup(f2.players, b.target).Some?
    ensures var r := ResumePatrolStep(b, t, f1, live).brain;
      && r.state == Patrolling && r.patrolRunning && r.patrol.phase == TickWait
      && var s := Step(r, t, f2, live).0;
         s.state == Chasing && !s.patrolRunning && s.patrol.phase == NotSuspended
  {
  }

  /** What can happen to an enemy between two of its `Update` calls: a frame,
      the wake-up of the suspended patrol, or the server's one-second
      `FindNearestPlayer` timer, which re-targets in any state. */
  datatype Event = Tick(frame: Frame) | PatrolWake(frame: Frame) | Rescan(players: seq<PlayerView>)

  function Apply(b: Brain, t: Tuning, live: bool, e: Event): Brain {
    match e
    case Tick(f) => Step(b, t, f, live).0
    case PatrolWake(f) => if b.patrol.phase == NotSuspended then b else ResumePatrolStep(b, t, f, live).brain
    case Rescan(ps) => b.(target := Nearest(ps, t.detectionRadius))
  }

  function Play(b: Brain, t: Tuning, live: bool, events: seq<Event>): Brain
    decreases |events|
  {
    if events == [] then b else Play(Apply(b, t, live, events[0]), t, live, events[1..])
  }

  /** One event keeps a raised `isWaitingAtPatrolPoint` raised when the
      coroutine is not inside its point wait, and never enters that wait; a
      re-target writes only the target. */
  lemma ApplyKeepsStuckFlag(b: Brain, t: Tuning, live: bool, e: Event)
    requires b.patrol.waitingAtPoint && b.patrol.phase != PointWait
    ensures var r := Apply(b, t, live, e); r.patrol.waitingAtPoint && r.patrol.phase != PointWait
  {
  }

  /** A patrol stopped inside its 2-second wait (by a target in
      `HandlePatrollingState` or by `OnDefeated`) leaves
      `isWaitingAtPatrolPoint` raised. From then on, whatever happens, the
      flag stays raised and no patrol ever waits at a point or picks a new
      one again. */
  lemma {:induction false} StuckFlagStaysRaised(b: Brain, t: Tuning, live: bool, events: seq<Event>)
    requires b.patrol.waitingAtPoint && b.patrol.phase != PointWait
    ensures var r := Play(b, t, live, events); r.patrol.waitingAtPoint && r.patrol.phase != PointWait
    decreases |events|
  {
    if events != [] {
      ApplyKeepsStuckFlag(b, t, live, events[0]);
      StuckFlagStaysRaised(Apply(b, t, live, events[0]), t, live, events[1..]);
    }
  }

  /** Stopping the patrol in its point wait is how the flag gets stuck: a
      Patrolling enemy whose target shows up while the coroutine waits there
      drops the handle with the flag still raised. */
  lemma StopInPointWaitSticks(b: Brain, t: Tuning, f: Frame, live: bool)
    requires b.state == Patrolling && b.patrolRunning && b.patrol.phase == PointWait
    requires b.patrol.waitingAtPoint
    requires Lookup(f.players, b.target).Some?
    ensures var r := Step(b, t, f, live).0;
      r.state == Chasing && r.patrol.waitingAtPoint && r.patrol.phase == NotSuspended
  {
  }

  /** `patrolCoroutine == null` means no patrol is suspended; every event
      keeps that. */
  predicate HandleCoversPatrol(b: Brain) {
    !b.patrolRunning ==> b.patrol.phase == NotSuspended
  }

  lemma ApplyKeepsHandle(b: Brain, t: Tuning, live: bool, e: Event)
    requires HandleCoversPatrol(b)
    ensures HandleCoversPatrol(Apply(b, t, live, e))
  {
  }

  // ---------------------------------------------------------------------------
  // The component
  // ---------------------------------------------------------------------------

  /** The animator's bools: `isIdle`, `isWalking`, `isPunching` (exactly one
      of them is set by each helper). */
  datatype Pose = IdlePose | WalkingPose | PunchingPose

  class BasicEnemy {
    const isServer: bool
    const tuning: Tuning
    const hasAgent: bool
    const hasAnimator: bool
    var health: int
    var isDead: bool
    var currentState: EnemyState
    var targetPlayer: Option<nat>
    var patrolRunning: bool
    var patrolPhase: PatrolPhase
    var isPatrolling: bool
    var waitingAtPatrolPoint: bool
    var timeSinceLastChase: real
    var lastAttackTime: real
    var navMeshInitialized: bool
    var agentEnabled: bool
    var agentStopped: bool
    var visible: bool
    var spawnPosition: (real, real, real)
    var pose: Pose
    var gettingHit: bool
    /** `ResetHitAnimation` coroutines started and not yet finished. */
    var pendingHitResets: nat
    /** How many times `OnEnemyDefeated` has been raised. */
    var defeatedEvents: nat
    /** The players punched, in order: `TakeDamage(attackDamage)` on each. */
    var punched: seq<nat>

    constructor (isServer: bool, tuning: Tuning, hasAgent: bool, hasAnimator: bool, spawnPosition: (real, real, real))
      ensures this.isServer == isServer && this.tuning == tuning
      ensures this.hasAgent == hasAgent && this.hasAnimator == hasAnimator
      ensures this.spawnPosition == spawnPosition
      ensures health == 100 && !isDead && currentState == Idle && targetPlayer == None
      ensures !patrolRunning && patrolPhase == NotSuspended && !isPatrolling && !waitingAtPatrolPoint
      ensures timeSinceLastChase == 0.0 && lastAttackTime == 0.0
      ensures !navMeshInitialized && !agentEnabled && !agentStopped && visible
      ensures pose == IdlePose && !gettingHit && pendingHitResets == 0 && defeatedEvents == 0 && punched == []
    {
      this.isServer := isServer;
      this.tuning := tuning;
      this.hasAgent := hasAgent;
      this.hasAnimator := hasAnimator;
      this.spawnPosition := spawnPosition;
      health := 100;
      isDead := false;
      currentState := Idle;
      targetPlayer := None;
      patrolRunning := false;
      patrolPhase := NotSuspended;
      isPatrolling := false;
      waitingAtPatrolPoint := false;
      timeSinceLastChase := 0.0;
      lastAttackTime := 0.0;
      navMeshInitialized := false;
      agentEnabled := false;
      agentStopped := false;
      visible := true;
      pose := IdlePose;
      gettingHit := false;
      pendingHitResets := 0;
      defeatedEvents := 0;
      punched := [];
    }

    function AI(): Brain
      reads this
    {
      Brain(currentState, targetPlayer, patrolRunning, timeSinceLastChase, lastAttackTime,
            Patrol(patrolPhase, isPatrolling, waitingAtPatrolPoint))
    }

    /** Writes a brain back into the fields. */
    method SetAI(b: Brain)
      modifies this
      ensures AI() == b
      ensures health == old(health) && isDead == old(isDead) && pose == old(pose) && punched == old(punched)
      ensures agentEnabled == old(agentEnabled) && agentStopped == old(agentStopped)
      ensures navMeshInitialized == old(navMeshInitialized) && visible == old(visible)
      ensures spawnPosition == old(spawnPosition) && gettingHit == old(gettingHit)
      ensures pendingHitResets == old(pendingHitResets) && defeatedEvents == old(defeatedEvents)
    {
      currentState, targetPlayer, patrolRunning := b.state, b.target, b.patrolRunning;
      timeSinceLastChase, lastAttackTime := b.timeSinceLastChase, b.lastAttackTime;
      patrolPhase, isPatrolling, waitingAtPatrolPoint := b.patrol.phase, b.patrol.isPatrolling, b.patrol.waitingAtPoint;
    }

    /** `FindNearestPlayer()`. */
    method FindNearestPlayer(players: seq<PlayerView>)
      modifies this
      ensures targetPlayer == Nearest(players, tuning.detectionRadius)
      ensures AI() == old(AI()).(target := targetPlayer)
      ensures health == old(health) && isDead == old(isDead) && pose == old(pose)
    {
      var closestDistance := FloatMax;
      var closest := -1;
      var i := 0;
      while i < |players|
        invariant 0 <= i <= |players| && -1 <= closest < |players|
        invariant NearestFrom(players, tuning.detectionRadius, i, closestDistance, closest)
               == NearestIndex(players, tuning.detectionRadius)
      {
        var distance := players[i].distance;
        if players[i].active && distance < closestDistance && distance <= tuning.detectionRadius {
          closestDistance := distance;
          closest := i;
        }
        i := i + 1;
      }
      targetPlayer := if closest >= 0 then Some(players[closest].id) else None;
    }

    /** `Update()`: nothing for a dead enemy; otherwise the walk or idle pose
        from the agent's speed, and on the server the state handler. Without
        an agent the speed read throws and the frame ends there. A patrol
        started by the Patrolling handler may call `SetIdleAnimation`, but
        only at a speed for which the pose is already idle. */
    method Update(f: Frame)
      modifies this
      ensures old(isDead) || !hasAgent ==> AI() == old(AI()) && pose == old(pose) && punched == old(punched)
      ensures !old(isDead) && hasAgent && !isServer ==> AI() == old(AI()) && punched == old(punched)
      ensures !old(isDead) && hasAgent && isServer ==>
        var (b, swung) := Step(old(AI()), tuning, f, old(agentEnabled));
        var v := Lookup(f.players, old(targetPlayer));
        && AI() == b
        && punched == old(punched) + (if swung && v.value.hasHealth then [v.value.id] else [])
      ensures !old(isDead) && hasAgent && hasAnimator ==>
        pose == if isServer && Step(old(AI()), tuning, f, old(agentEnabled)).1
                   && Lookup(f.players, old(targetPlayer)).value.hasHealth then PunchingPose
                else if f.agentSpeed > tuning.movementThreshold then WalkingPose else IdlePose
      ensures !hasAnimator ==> pose == old(pose)
      ensures health == old(health) && isDead == old(isDead) && agentEnabled == old(agentEnabled)
    {
      if isDead {
        return;
      }
      if !hasAgent {
        return;
      }
      if hasAnimator {
        pose := if f.agentSpeed > tuning.movementThreshold then WalkingPose else IdlePose;
      }
      if !isServer {
        return;
      }
      var v := Lookup(f.players, targetPlayer);
      var (b, swung) := Step(AI(), tuning, f, agentEnabled);
      SetAI(b);
      if swung && v.value.hasHealth {
        punched := punched + [v.value.id];
        if hasAnimator {
          pose := PunchingPose;
        }
      }
    }

    /** The suspended `PatrolBehavior` wakes up after its wait and runs to its
        next `yield`. */
    method ResumePatrol(f: Frame)
      requires patrolPhase != NotSuspended
      modifies this
      ensures var out := ResumePatrolStep(old(AI()), tuning, f, hasAgent && agentEnabled && !isDead);
        && AI() == out.brain
        && pose == if hasAnimator && out.idlePose then IdlePose else old(pose)
      ensures health == old(health) && isDead == old(isDead) && punched == old(punched)
      ensures agentEnabled == old(agentEnabled) && visible == old(visible)
    {
      var out := ResumePatrolStep(AI(), tuning, f, hasAgent && agentEnabled && !isDead);
      SetAI(out.brain);
      if hasAnimator && out.idlePose {
        pose := IdlePose;
      }
    }

    /** `InitializeNavMeshAgent()`: with an agent, enable it; when patrol is
        enabled and there is no handle, start the patrol (it runs to its first
        `yield`) and then set the state to Patrolling. */
    method InitializeNavMeshAgent(f: Frame)
      modifies this
      ensures hasAgent ==> agentEnabled && navMeshInitialized
      ensures hasAgent && tuning.enablePatrol && !old(patrolRunning) ==>
        var out := StartPatrol(old(AI()), tuning, f, !isDead);
        && AI() == out.brain.(state := Patrolling)
        && pose == if hasAnimator && out.idlePose then IdlePose else old(pose)
      ensures !(hasAgent && tuning.enablePatrol && !old(patrolRunning)) ==> AI() == old(AI()) && pose == old(pose)
      ensures !hasAgent ==> agentEnabled == old(agentEnabled) && navMeshInitialized == old(navMeshInitialized)
      ensures health == old(health) && isDead == old(isDead)
      ensures agentStopped == old(agentStopped) && visible == old(visible) && spawnPosition == old(spawnPosition)
      ensures gettingHit == old(gettingHit) && punched == old(punched)
    {
      if hasAgent {
        agentEnabled := true;
        navMeshInitialized := true;
        if tuning.enablePatrol && !patrolRunning {
          var out := StartPatrol(AI(), tuning, f, !isDead);
          SetAI(out.brain);
          if hasAnimator && out.idlePose {
            pose := IdlePose;
          }
          currentState := Patrolling;
        }
      }
    }

    /** `TakeDamage(damageAmount)`: `Enemy`'s rule, plus the hit animation. */
    method TakeDamage(damageAmount: int) returns (defeated: bool)
      requires InInt32(damageAmount)
      modifies this
      ensures (Life(health, isDead), defeated) == Hit(Life(old(health), old(isDead)), damageAmount)
      ensures !old(isDead) && hasAnimator ==> gettingHit && pendingHitResets == old(pendingHitResets) + 1
      ensures old(isDead) || !hasAnimator ==> gettingHit == old(gettingHit) && pendingHitResets == old(pendingHitResets)
      ensures defeated && isServer ==>
        defeatedEvents == old(defeatedEvents) + 1 && !patrolRunning && !isPatrolling && !visible
      ensures defeated && isServer && old(patrolRunning) ==> patrolPhase == NotSuspended
      ensures defeated && isServer && hasAgent && old(agentEnabled) ==> !agentEnabled && agentStopped
      ensures !(defeated && isServer) ==>
        defeatedEvents == old(defeatedEvents) && patrolRunning == old(patrolRunning)
        && patrolPhase == old(patrolPhase) && visible == old(visible) && agentEnabled == old(agentEnabled)
      ensures currentState == old(currentState) && targetPlayer == old(targetPlayer)
      ensures waitingAtPatrolPoint == old(waitingAtPatrolPoint)
    {
      if isDead {
        return false;
      }
      health := Wrap32(health - damageAmount);
      if hasAnimator {
        gettingHit := true;
        pendingHitResets := pendingHitResets + 1;
      }
      if health <= 0 {
        isDead := true;
        OnDefeated();
        return true;
      }
      return false;
    }

    /** The end of a `ResetHitAnimation` coroutine. */
    method ResumeResetHitAnimation()
      requires pendingHitResets > 0
      modifies this
      ensures pendingHitResets == old(pendingHitResets) - 1
      ensures hasAnimator ==> !gettingHit
      ensures !hasAnimator ==> gettingHit == old(gettingHit)
      ensures AI() == old(AI()) && health == old(health) && isDead == old(isDead)
    {
      pendingHitResets := pendingHitResets - 1;
      if hasAnimator {
        gettingHit := false;
      }
    }

    /** `OnDefeated()`: on the server, raise the event, stop the patrol and
        the agent, and hide the enemy. Stopping the patrol leaves
        `isWaitingAtPatrolPoint` as it was. */
    method OnDefeated()
      modifies this
      ensures isServer ==>
        defeatedEvents == old(defeatedEvents) + 1 && !patrolRunning && !isPatrolling && !visible
      ensures isServer && old(patrolRunning) ==> patrolPhase == NotSuspended
      ensures !(isServer && old(patrolRunning)) ==> patrolPhase == old(patrolPhase)
      ensures isServer && hasAgent && old(agentEnabled) ==> !agentEnabled && agentStopped
      ensures !(isServer && hasAgent && old(agentEnabled)) ==>
        agentEnabled == old(agentEnabled) && agentStopped == old(agentStopped)
      ensures !isServer ==> unchanged(this)
      ensures health == old(health) && isDead == old(isDead) && currentState == old(currentState)
      ensures targetPlayer == old(targetPlayer) && gettingHit == old(gettingHit)
      ensures pendingHitResets == old(pendingHitResets) && waitingAtPatrolPoint == old(waitingAtPatrolPoint)
    {
      if !isServer {
        return;
      }
      defeatedEvents := defeatedEvents + 1;
      isPatrolling := false;
      if patrolRunning {
        patrolPhase := NotSuspended;
        patrolRunning := false;
      }
      if hasAgent && agentEnabled {
        agentStopped := true;
        agentEnabled := false;
      }
      visible := false;
    }

    /** `Reset(newPosition)`: alive at full health, visible, at the new spawn
        point; the agent and patrol restart, or the agent is initialised when
        it never was and the navigation mesh is ready. The AI state and target
        are kept. */
    method Reset(newPosition: (real, real, real), navMeshReady: bool, f: Frame)
      modifies this
      ensures !isDead && health == 100 && spawnPosition == newPosition && visible
      ensures targetPlayer == old(targetPlayer) && lastAttackTime == old(lastAttackTime)
      ensures hasAgent && !old(agentEnabled) && old(navMeshInitialized) ==>
        agentEnabled && !agentStopped
        && AI() == if tuning.enablePatrol && !old(patrolRunning) then StartPatrol(old(AI()), tuning, f, true).brain
                   else old(AI())
      ensures !old(navMeshInitialized) && navMeshReady && hasAgent ==>
        agentEnabled && navMeshInitialized
        && AI() == if tuning.enablePatrol && !old(patrolRunning)
                   then StartPatrol(old(AI()), tuning, f, true).brain.(state := Patrolling)
                   else old(AI())
      ensures !old(navMeshInitialized) && !(navMeshReady && hasAgent) ==>
        agentEnabled == old(agentEnabled) && navMeshInitialized == old(navMeshInitialized)
        && AI() == old(AI())
      ensures old(navMeshInitialized) && !(hasAgent && !old(agentEnabled)) ==>
        agentEnabled == old(agentEnabled) && agentStopped == old(agentStopped) && AI() == old(AI())
      ensures pose == if hasAnimator then IdlePose else old(pose)
    {
      isDead := false;
      health := 100;
      spawnPosition := newPosition;
      visible := true;
      if hasAnimator {
        pose := IdlePose;
      }
      if hasAgent && !agentEnabled && navMeshInitialized {
        agentEnabled := true;
        agentStopped := false;
        if tuning.enablePatrol && !patrolRunning {
          var out := StartPatrol(AI(), tuning, f, true);
          SetAI(out.brain);
          if hasAnimator && out.idlePose {
            pose := IdlePose;
          }
        }
      } else if !navMeshInitialized {
        if navMeshReady {
          InitializeNavMeshAgent(f);
        }
      }
    }
  }
}
