/** The enemy components: the enemy's stats and timers, and the aiming
    controller (systems/enemy/mod.rs, lines 6-118). The systems that drive
    them are in `enemy_systems.dfy`. Each `&mut self` method is a function
    returning the updated component. */
module Enemies {
  import opened Core

  datatype Enemy = Enemy(
    size: Vec2,
    health: real,
    maxHealth: real,
    attackRange: real,
    shootCooldown: real,
    shootTimer: real,
    projectileSpeed: real,
    damage: real,
    healthBarTimer: real)

  /** `Enemy::new`. */
  function NewEnemy(): (e: Enemy)
    ensures e.size == Vec2(32.0, 48.0) && e.health == e.maxHealth == 50.0
    ensures e.attackRange == 600.0 && e.shootCooldown == 2.0 && e.shootTimer == 0.0
    ensures e.projectileSpeed == 400.0 && e.damage == 10.0 && e.healthBarTimer == 0.0
  {
    Enemy(Vec2(32.0, 48.0), 50.0, 50.0, 600.0, 2.0, 0.0, 400.0, 10.0, 0.0)
  }

  /** `can_shoot`: the shot timer has run out. */
  predicate CanShoot(e: Enemy)
  {
    e.shootTimer <= 0.0
  }

  /** `reset_shoot_timer`. */
  function ResetShootTimer(e: Enemy): (r: Enemy)
    ensures r == e.(shootTimer := e.shootCooldown)
    ensures e.shootCooldown > 0.0 ==> !CanShoot(r)
  {
    e.(shootTimer := e.shootCooldown)
  }

  /** `update_timer`: counts down only while the timer is positive. */
  function UpdateTimer(e: Enemy, dt: real): (r: Enemy)
    ensures e.shootTimer > 0.0 ==> r == e.(shootTimer := e.shootTimer - dt)
    ensures e.shootTimer <= 0.0 ==> r == e
  {
    if e.shootTimer > 0.0 then e.(shootTimer := e.shootTimer - dt) else e
  }

  /** `show_health_bar`: three seconds of visible health bar. */
  function ShowHealthBar(e: Enemy): (r: Enemy)
    ensures r == e.(healthBarTimer := 3.0) && ShouldShowHealthBar(r)
  {
    e.(healthBarTimer := 3.0)
  }

  /** `update_health_bar_timer`. */
  function UpdateHealthBarTimer(e: Enemy, dt: real): (r: Enemy)
    ensures e.healthBarTimer > 0.0 ==> r == e.(healthBarTimer := e.healthBarTimer - dt)
    ensures e.healthBarTimer <= 0.0 ==> r == e
  {
    if e.healthBarTimer > 0.0 then e.(healthBarTimer := e.healthBarTimer - dt) else e
  }

  /** `should_show_health_bar`. */
  predicate ShouldShowHealthBar(e: Enemy)
  {
    e.healthBarTimer > 0.0
  }

  /** A timer that has run out stays out, and a running timer no longer than
      one step runs out at that step: the enemy may shoot again one tick after
      its cooldown has elapsed. */
  lemma {:induction false} ShootTimerRunsOut(e: Enemy, dt: real)
    requires dt >= 0.0
    ensures CanShoot(e) ==> CanShoot(UpdateTimer(e, dt))
    ensures e.shootTimer <= dt ==> CanShoot(UpdateTimer(e, dt))
    ensures !CanShoot(UpdateTimer(e, dt)) ==> UpdateTimer(e, dt).shootTimer < e.shootTimer || dt == 0.0
  {
  }

  /** The health bar shows for three seconds: with steps of `dt`, it is still
      visible after a step from a timer above `dt`, and never reappears on its
      own. */
  lemma {:induction false} HealthBarFades(e: Enemy, dt: real)
    requires dt >= 0.0
    ensures !ShouldShowHealthBar(e) ==> !ShouldShowHealthBar(UpdateHealthBarTimer(e, dt))
    ensures e.healthBarTimer > dt ==> ShouldShowHealthBar(UpdateHealthBarTimer(e, dt))
    ensures UpdateTimer(UpdateHealthBarTimer(e, dt), dt).health == e.health
  {
  }

  /** `EnemyState`: there is no other state in the source. */
  datatype EnemyState = Idle | Targeting | Shooting

  datatype EnemyController = EnemyController(state: EnemyState, targetPosition: Option<Vec2>, facingDirection: Vec2)

  /** `EnemyController::new`: idle, facing left. */
  function NewController(): (c: EnemyController)
    ensures c.state == Idle && c.targetPosition == None && c.facingDirection == Vec2(-1.0, 0.0)
  {
    EnemyController(Idle, None, Vec2(-1.0, 0.0))
  }

  /** The aim point of `update_target`: the player itself, or, when the
      player moves faster than 10 units per second, half of the way the player
      covers while a shot crosses `distance`. */
  function AimPoint(playerPos: Vec2, playerVel: Option<Vec2>, distance: real, projectileSpeed: real,
                    length: Vec2 -> real): (aim: Vec2)
    requires projectileSpeed > 0.0
    ensures playerVel.None? ==> aim == playerPos
    ensures playerVel.Some? && length(playerVel.value) <= 10.0 ==> aim == playerPos
  {
    match playerVel
    case None => playerPos
    case Some(vel) =>
      if length(vel) > 10.0 then
        var timeToTarget := distance / projectileSpeed;
        playerPos.Add(vel.Scale(timeToTarget).Scale(0.5))
      else playerPos
  }

  /** The lead is where the player will be after half of the flight time:
      `aim - player` is the velocity times half of `distance / speed`. */
  lemma {:induction false} LeadIsHalfFlightTime(playerPos: Vec2, vel: Vec2, distance: real, speed: real,
                                                length: Vec2 -> real)
    requires speed > 0.0 && length(vel) > 10.0
    ensures var aim := AimPoint(playerPos, Some(vel), distance, speed, length);
            aim.Sub(playerPos).Scale(2.0 * speed) == vel.Scale(distance)
  {
    var t := distance / speed;
    var aim := AimPoint(playerPos, Some(vel), distance, speed, length);
    assert aim == playerPos.Add(vel.Scale(t).Scale(0.5));
    assert t * speed == distance;
    assert aim.Sub(playerPos) == Vec2(vel.x * t * 0.5, vel.y * t * 0.5);
    calc {
      vel.x * t * 0.5 * (2.0 * speed);
      ==
      vel.x * (t * speed);
      ==
      vel.x * distance;
    }
    calc {
      vel.y * t * 0.5 * (2.0 * speed);
      ==
      vel.y * (t * speed);
      ==
      vel.y * distance;
    }
  }

  /** `update_target`. `length` is glam's Euclidean length. Within range the
      controller targets the (led) aim point and turns towards it unless the
      direction is zero; out of range it goes idle and forgets the target,
      keeping its facing. */
  function UpdateTarget(c: EnemyController, playerPos: Vec2, enemyPos: Vec2, attackRange: real,
                        playerVel: Option<Vec2>, projectileSpeed: real, length: Vec2 -> real): (r: EnemyController)
    requires projectileSpeed > 0.0
    ensures var distance := length(playerPos.Sub(enemyPos));
            (distance <= attackRange <==> r.state == Targeting) &&
            (distance <= attackRange ==>
               r.targetPosition == Some(AimPoint(playerPos, playerVel, distance, projectileSpeed, length))) &&
            (distance > attackRange ==> r == c.(state := Idle, targetPosition := None))
    ensures r.facingDirection == c.facingDirection ||
            (r.state == Targeting && r.facingDirection != Zero &&
             r.facingDirection.Scale(length(r.targetPosition.value.Sub(enemyPos))) == r.targetPosition.value.Sub(enemyPos))
    ensures var distance := length(playerPos.Sub(enemyPos));
            var aim := AimPoint(playerPos, playerVel, distance, projectileSpeed, length);
            var d := NormalizeOrZero(aim.Sub(enemyPos), length(aim.Sub(enemyPos)));
            distance <= attackRange ==> r.facingDirection == (if d != Zero then d else c.facingDirection)
    ensures var distance := length(playerPos.Sub(enemyPos));
            var toAim := AimPoint(playerPos, playerVel, distance, projectileSpeed, length).Sub(enemyPos);
            distance <= attackRange && length(toAim) > 0.0 && toAim != Zero ==>
              r.facingDirection.Scale(length(toAim)) == toAim
  {
    var distance := length(playerPos.Sub(enemyPos));
    if distance <= attackRange then
      var aim := AimPoint(playerPos, playerVel, distance, projectileSpeed, length);
      var toAim := aim.Sub(enemyPos);
      var direction := NormalizeOrZero(toAim, length(toAim));
      EnemyController(Targeting, Some(aim), if direction != Zero then direction else c.facingDirection)
    else
      c.(state := Idle, targetPosition := None)
  }

  /** `get_shoot_direction`. */
  function ShootDirection(c: EnemyController): (d: Vec2)
    ensures d == c.facingDirection
  {
    c.facingDirection
  }

  /** Out of range, a second call changes nothing; in range, the target is
      the player itself whenever the player is standing still. */
  lemma {:induction false} UpdateTargetIdempotentOutOfRange(c: EnemyController, playerPos: Vec2, enemyPos: Vec2,
                                                            range: real, speed: real, length: Vec2 -> real)
    requires speed > 0.0 && length(playerPos.Sub(enemyPos)) > range
    ensures var once := UpdateTarget(c, playerPos, enemyPos, range, None, speed, length);
            UpdateTarget(once, playerPos, enemyPos, range, None, speed, length) == once
  {
  }
}
