/** The two enemy systems of systems/enemy/mod.rs: the AI, which tracks the
    first player, aims with a lead and fires when the shot timer allows
    (lines 120-173), and the physics, which drops every non-player enemy
    under gravity and stops it at the level's tiles (lines 175-221). */
module EnemySystems {
  import opened Core
  import Physics
  import opened Levels
  import opened Enemies
  import opened AxisMove
  import opened Ecs

  /** A shot the AI asks for: `(spawn position, direction, speed, damage)`. */
  datatype EnemyShot = EnemyShot(position: Vec2, direction: Vec2, speed: real, damage: real)

  /** The player the AI tracks: the first entity with a `Transform` and a
      `RigidBody` that is a `Player`. */
  predicate PlayerBody(e: Entity)
  {
    e.player.Some? && e.transform.Some? && e.body.Some?
  }

  /** The AI query: `(&mut Enemy, &Transform, &mut EnemyController)`. */
  predicate Thinks(e: Entity)
  {
    e.enemy.Some? && e.transform.Some? && e.enemyController.Some?
  }

  /** The enemies the AI drives have a positive projectile speed (the lead
      divides by it). */
  predicate Aimable(e: Entity)
  {
    e.enemy.Some? ==> e.enemy.value.projectileSpeed > 0.0
  }

  /** Lines 156-167, once the timers have ticked and the target is updated:
      fire along the facing direction when targeting with the timer run out
      (the shot starts `size.x / 2 + 10` units out), otherwise keep targeting
      or fall back to `Idle`. */
  function Fire(en: Enemy, pos: Vec2, c: EnemyController): (r: (Enemy, EnemyController, Option<EnemyShot>))
    ensures r.0.projectileSpeed == en.projectileSpeed && r.0.health == en.health && r.0.size == en.size
    ensures r.2.Some? <==> c.state == Targeting && CanShoot(en)
    ensures r.2.Some? ==> r.2.value.direction == c.facingDirection &&
                          r.2.value.position.Sub(pos) == c.facingDirection.Scale(en.size.x / 2.0 + 10.0) &&
                          r.2.value.speed == en.projectileSpeed && r.2.value.damage == en.damage &&
                          r.0 == ResetShootTimer(en) && r.1 == c.(state := Shooting)
    ensures r.2.None? ==> r.0 == en && r.1 == (if c.state == Targeting then c else c.(state := Idle))
  {
    if c.state == Targeting && CanShoot(en) then
      var dir := ShootDirection(c);
      var shot := EnemyShot(pos.Add(dir.Scale(en.size.x / 2.0 + 10.0)), dir, en.projectileSpeed, en.damage);
      (ResetShootTimer(en), c.(state := Shooting), Some(shot))
    else if c.state != Targeting then (en, c.(state := Idle), None)
    else (en, c, None)
  }

  /** Lines 141-168 for one enemy at `pos`: tick both timers, retarget on the
      player at `playerPos` moving at `playerVel`, then fire or not. */
  function Think(en: Enemy, pos: Vec2, c: EnemyController, playerPos: Vec2, playerVel: Vec2, dt: real,
                 length: Vec2 -> real): (r: (Enemy, EnemyController, Option<EnemyShot>))
    requires en.projectileSpeed > 0.0
    ensures r.0.projectileSpeed == en.projectileSpeed && r.0.health == en.health && r.0.size == en.size
  {
    var en1 := UpdateHealthBarTimer(UpdateTimer(en, dt), dt);
    Fire(en1, pos, UpdateTarget(c, playerPos, pos, en1.attackRange, Some(playerVel), en1.projectileSpeed, length))
  }

  /** The first two steps of one enemy's frame: both timers tick and the
      target is updated; nothing else about the enemy changes. */
  lemma {:induction false} ThinkIsFireAfterRetarget(en: Enemy, pos: Vec2, c: EnemyController, playerPos: Vec2,
                                                    playerVel: Vec2, dt: real, length: Vec2 -> real)
    requires en.projectileSpeed > 0.0
    ensures var en1 := UpdateHealthBarTimer(UpdateTimer(en, dt), dt);
            en1.shootTimer == UpdateTimer(en, dt).shootTimer && en1.damage == en.damage &&
            en1.attackRange == en.attackRange && en1.projectileSpeed == en.projectileSpeed &&
            en1.shootCooldown == en.shootCooldown && en1.size == en.size &&
            Think(en, pos, c, playerPos, playerVel, dt, length) ==
            Fire(en1, pos, UpdateTarget(c, playerPos, pos, en.attackRange, Some(playerVel), en.projectileSpeed, length))
  {
  }

  /** What one enemy's frame promises: it fires exactly when the player is in
      range and its shot timer has run out, the shot flies along the facing
      direction from just outside the enemy with the enemy's speed and damage,
      and firing restarts the shot timer and enters `Shooting`; in range
      without firing it keeps targeting; out of range the enemy is idle, has
      no target and keeps its facing direction. */
  lemma {:induction false} FiringRules(en: Enemy, pos: Vec2, c: EnemyController, playerPos: Vec2, playerVel: Vec2,
                                       dt: real, length: Vec2 -> real)
    requires en.projectileSpeed > 0.0
    ensures var r := Think(en, pos, c, playerPos, playerVel, dt, length);
            var inRange := length(playerPos.Sub(pos)) <= en.attackRange;
            (r.2.Some? <==> inRange && CanShoot(UpdateTimer(en, dt))) &&
            (r.2.Some? ==> r.2.value.direction == r.1.facingDirection &&
                           r.2.value.position.Sub(pos) == r.1.facingDirection.Scale(en.size.x / 2.0 + 10.0) &&
                           r.2.value.speed == en.projectileSpeed && r.2.value.damage == en.damage &&
                           r.0.shootTimer == en.shootCooldown && r.1.state == Shooting) &&
            (inRange && r.2.None? ==> r.1.state == Targeting && r.0.shootTimer == UpdateTimer(en, dt).shootTimer) &&
            (!inRange ==> r.1.state == Idle && r.1.targetPosition == None && r.1.facingDirection == c.facingDirection)
  {
    ThinkIsFireAfterRetarget(en, pos, c, playerPos, playerVel, dt, length);
    var en1 := UpdateHealthBarTimer(UpdateTimer(en, dt), dt);
    var c1 := UpdateTarget(c, playerPos, pos, en.attackRange, Some(playerVel), en.projectileSpeed, length);
    var inRange := length(playerPos.Sub(pos)) <= en.attackRange;
    assert c1.state == Targeting <==> inRange;
    assert !inRange ==> c1.state == Idle && c1.targetPosition == None && c1.facingDirection == c.facingDirection;
    FireAfterRetarget(en1, pos, c, c1, inRange);
  }

  /** `Fire` on a controller whose state is `Targeting` exactly when the
      player is in range, and which out of range is idle with no target. */
  lemma FireAfterRetarget(en1: Enemy, pos: Vec2, c: EnemyController, c1: EnemyController, inRange: bool)
    requires c1.state == Targeting <==> inRange
    requires !inRange ==> c1.state == Idle && c1.targetPosition == None && c1.facingDirection == c.facingDirection
    ensures var r := Fire(en1, pos, c1);
            (r.2.Some? <==> inRange && CanShoot(en1)) &&
            (r.2.Some? ==> r.2.value.direction == r.1.facingDirection &&
                           r.2.value.position.Sub(pos) == r.1.facingDirection.Scale(en1.size.x / 2.0 + 10.0) &&
                           r.2.value.speed == en1.projectileSpeed && r.2.value.damage == en1.damage &&
                           r.0.shootTimer == en1.shootCooldown && r.1.state == Shooting) &&
            (inRange && r.2.None? ==> r.1.state == Targeting && r.0.shootTimer == en1.shootTimer) &&
            (!inRange ==> r.1.state == Idle && r.1.targetPosition == None && r.1.facingDirection == c.facingDirection)
  {
  }

  /** One enemy entity after the AI. */
  function Thought(e: Entity, playerPos: Vec2, playerVel: Vec2, dt: real, length: Vec2 -> real): (r: (Entity, Option<EnemyShot>))
    requires Aimable(e)
    ensures Aimable(r.0) && r.0.mech == e.mech
    ensures !Thinks(e) ==> r == (e, None)
  {
    if !Thinks(e) then (e, None)
    else
      var (en, c, shot) := Think(e.enemy.value, e.transform.value.position, e.enemyController.value,
                                 playerPos, playerVel, dt, length);
      (e.(enemy := Some(en), enemyController := Some(c)), shot)
  }

  /** The shots of the enemies among `ids`, in query order. */
  function Shots(ids: seq<EntityId>, ents: map<EntityId, Entity>, playerPos: Vec2, playerVel: Vec2, dt: real,
                 length: Vec2 -> real): seq<EnemyShot>
    requires forall id :: id in ents ==> Aimable(ents[id])
  {
    if ids == [] then []
    else
      var id := ids[|ids| - 1];
      Shots(ids[..|ids| - 1], ents, playerPos, playerVel, dt, length) +
      (if id in ents && Thought(ents[id], playerPos, playerVel, dt, length).1.Some?
       then [Thought(ents[id], playerPos, playerVel, dt, length).1.value] else [])
  }

  /** Every enemy fires at most once per frame, and only enemies fire. */
  lemma {:induction false} AtMostOneShotEach(ids: seq<EntityId>, ents: map<EntityId, Entity>, playerPos: Vec2,
                                             playerVel: Vec2, dt: real, length: Vec2 -> real)
    requires forall id :: id in ents ==> Aimable(ents[id])
    ensures |Shots(ids, ents, playerPos, playerVel, dt, length)| <= CountWhere(ids, ents, Thinks)
  {
    if ids != [] {
      AtMostOneShotEach(ids[..|ids| - 1], ents, playerPos, playerVel, dt, length);
    }
  }

  /** `enemy_ai_system`: without a player nothing happens; otherwise every
      enemy takes one AI step against the first player's position and
      velocity, and the requested shots come back in query order. */
  method EnemyAiSystem(world: World, dt: real, length: Vec2 -> real) returns (shots: seq<EnemyShot>)
    requires world.Valid()
    requires forall id :: id in world.entities ==> Aimable(world.entities[id])
    modifies world
    ensures world.Valid() && world.order == old(world.order) && world.nextId == old(world.nextId)
    ensures world.entities.Keys == old(world.entities).Keys
    ensures FirstWhere(world.order, old(world.entities), PlayerBody).None? ==>
              world.entities == old(world.entities) && shots == []
    ensures FirstWhere(world.order, old(world.entities), PlayerBody).Some? ==>
              var p := old(world.entities)[world.order[FirstWhere(world.order, old(world.entities), PlayerBody).value]];
              var playerPos, playerVel := p.transform.value.position, p.body.value.velocity;
              (forall id :: id in old(world.entities) ==>
                 world.entities[id] == Thought(old(world.entities)[id], playerPos, playerVel, dt, length).0) &&
              shots == Shots(world.order, old(world.entities), playerPos, playerVel, dt, length)
  {
    shots := [];
    var found := world.FindFirst(PlayerBody);
    if found.None? {
      return;
    }
    var p := world.entities[found.value];
    var playerPos, playerVel := p.transform.value.position, p.body.value.velocity;
    var think := (e: Entity, id: EntityId) requires Aimable(e) => AiStep(e, playerPos, playerVel, dt, length);
    var ents;
    ents, shots := StepAll(world.entities, world.order, think);
    RequestsAreShots(world.order, world.entities, think, playerPos, playerVel, dt, length);
    world.Store(ents);
  }

  /** One entity's AI step with its shot, if any, as a list. */
  function AiStep(e: Entity, playerPos: Vec2, playerVel: Vec2, dt: real, length: Vec2 -> real): (r: (Entity, seq<EnemyShot>))
    requires Aimable(e)
    ensures var t := Thought(e, playerPos, playerVel, dt, length);
            r.0 == t.0 && r.1 == if t.1.Some? then [t.1.value] else []
  {
    var (next, shot) := Thought(e, playerPos, playerVel, dt, length);
    (next, if shot.Some? then [shot.value] else [])
  }

  /** With the AI step as the step, the requests collected are exactly the
      enemies' shots. */
  lemma {:induction false} RequestsAreShots(ids: seq<EntityId>, ents: map<EntityId, Entity>,
                                            think: (Entity, EntityId) --> (Entity, seq<EnemyShot>),
                                            playerPos: Vec2, playerVel: Vec2, dt: real, length: Vec2 -> real)
    requires forall id :: id in ents ==> Aimable(ents[id])
    requires forall e, id :: Aimable(e) ==> think.requires(e, id) && think(e, id) == AiStep(e, playerPos, playerVel, dt, length)
    ensures Requests(ids, ents, think) == Shots(ids, ents, playerPos, playerVel, dt, length)
  {
    if ids != [] {
      RequestsAreShots(ids[..|ids| - 1], ents, think, playerPos, playerVel, dt, length);
    }
  }

  // ---------------------------------------------------------------- physics

  /** Downward force on an enemy every frame. */
  const EnemyGravity: real := 800.0

  /** The physics query: `(&Enemy, &mut Transform, &mut RigidBody)` without a
      `Player`. */
  predicate Falls(e: Entity)
  {
    e.enemy.Some? && e.transform.Some? && e.body.Some? && e.player.None?
  }

  /** The bodies the physics integrates have a mass. */
  predicate Weighted(e: Entity)
  {
    Falls(e) ==> e.body.value.mass != 0.0
  }

  /** Lines 187-220 for one enemy: gravity, integration, then the two-axis
      move against the level. */
  ghost function FallStep(level: Level, en: Enemy, t: Transform, b: Physics.RigidBody, dt: real): (r: (Transform, Physics.RigidBody))
    requires level.Valid() && b.mass != 0.0
  {
    var b1 := Physics.Integrate(Physics.ApplyForce(b, Vec2(0.0, EnemyGravity)), dt);
    var res := Resolve(level, t.position, b1.velocity, en.size, dt);
    (t.(position := res.position), b1.(velocity := res.velocity))
  }

  /** An enemy never falls into the level: a box clear of solid tiles stays
      clear, and a blocked axis stops the body on that axis. */
  lemma {:induction false} FallingStaysOutOfWalls(level: Level, en: Enemy, t: Transform, b: Physics.RigidBody, dt: real)
    requires level.Valid() && b.mass != 0.0
    requires !Collides(level, CenteredRect(t.position, en.size))
    ensures var (t', b') := FallStep(level, en, t, b, dt);
            !Collides(level, CenteredRect(t'.position, en.size)) &&
            (t'.position.y == t.position.y ==> b'.velocity.y == 0.0 || Physics.Integrate(Physics.ApplyForce(b, Vec2(0.0, EnemyGravity)), dt).velocity.y * dt == 0.0)
  {
    var b1 := Physics.Integrate(Physics.ApplyForce(b, Vec2(0.0, EnemyGravity)), dt);
    NeverEntersWalls(level, t.position, b1.velocity, en.size, dt);
  }

  ghost function Fallen(level: Level, dt: real, e: Entity): (r: Entity)
    requires level.Valid() && Weighted(e)
    ensures r.mech == e.mech
  {
    if Falls(e) then
      var (t, b) := FallStep(level, e.enemy.value, e.transform.value, e.body.value, dt);
      e.(transform := Some(t), body := Some(b))
    else e
  }

  /** One enemy's physics step as the system performs it. */
  method FallOne(level: Level, dt: real, e: Entity) returns (e': Entity)
    requires level.Valid() && Weighted(e)
    ensures e' == Fallen(level, dt, e)
  {
    e' := e;
    if Falls(e) {
      var body := Physics.Integrate(Physics.ApplyForce(e.body.value, Vec2(0.0, EnemyGravity)), dt);
      var res := ResolveAxes(level, e.transform.value.position, body.velocity, e.enemy.value.size, dt);
      e' := e.(transform := Some(e.transform.value.(position := res.position)),
               body := Some(body.(velocity := res.velocity)));
    }
  }

  /** `enemy_physics_system`: every non-player enemy takes one physics step. */
  method EnemyPhysicsSystem(world: World, level: Level, dt: real)
    requires world.Valid() && level.Valid()
    requires forall id :: id in world.entities ==> Weighted(world.entities[id])
    modifies world
    ensures world.Valid() && world.order == old(world.order) && world.nextId == old(world.nextId)
    ensures world.entities.Keys == old(world.entities).Keys
    ensures forall id :: id in old(world.entities) ==> world.entities[id] == Fallen(level, dt, old(world.entities)[id])
  {
    var ents0, order := world.entities, world.order;
    ghost var next := (e: Entity, id: EntityId) requires Weighted(e) => Fallen(level, dt, e);
    var ents := ents0;
    var i := 0;
    while i < |order|
      invariant 0 <= i <= |order| && unchanged(world)
      invariant ents == Applied(ents0, order[..i], next)
    {
      var id := order[i];
      AppliedNext(ents0, order, i, next);
      var e := FallOne(level, dt, ents[id]);
      ents := ents[id := e];
      i := i + 1;
    }
    assert order[..i] == order;
    AppliedEvery(ents0, order, next);
    world.Store(ents);
  }
}
