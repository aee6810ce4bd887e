/** The projectile component (systems/projectile/mod.rs, lines 11-72). The
    system that moves projectiles and applies their hits is in
    `projectile_system.dfy`. */
module Projectiles {
  import opened Core
  import opened Weapons

  /** `ProjectileOwner`: which faction fired the shot. */
  datatype Owner = EnemyOwner | PlayerOwner

  datatype Projectile = Projectile(
    damage: real,
    lifetime: real,
    maxLifetime: real,
    size: Vec2,
    owner: Owner,
    weaponType: Option<WeaponType>,
    gravityScale: real,
    explosionRadius: real,
    pierceCount: nat,
    hasTrail: bool,
    color: Color)

  /** `Projectile::new`: a plain five-second bullet with unit gravity. */
  function NewProjectile(damage: real, owner: Owner): (p: Projectile)
    ensures p.damage == damage && p.owner == owner
    ensures p.lifetime == 0.0 && p.maxLifetime == 5.0
    ensures p.pierceCount == 0 && p.gravityScale == 1.0 && p.explosionRadius == 0.0
    ensures p.weaponType == None && !p.hasTrail && p.size == Vec2(8.0, 8.0)
  {
    Projectile(damage, 0.0, 5.0, Vec2(8.0, 8.0), owner, None, 1.0, 0.0, 0, false, Color(255, 200, 0, 255))
  }

  /** The weapons whose shots leave a trail. */
  predicate LeavesTrail(t: WeaponType)
  {
    t == RocketLauncher || t == LaserRifle || t == PlasmaGun
  }

  /** `Projectile::from_weapon`: the weapon's projectile parameters. */
  function FromWeapon(w: Weapon, owner: Owner): (p: Projectile)
    ensures p.damage == w.damage && p.lifetime == 0.0 && p.maxLifetime == w.projectileLifetime
    ensures p.size == w.projectileSize && p.color == w.projectileColor && p.owner == owner
    ensures p.gravityScale == w.gravityScale && p.explosionRadius == w.explosionRadius
    ensures p.pierceCount == w.pierceCount && p.weaponType == Some(w.weaponType)
    ensures p.hasTrail <==> (w.weaponType == RocketLauncher || w.weaponType == LaserRifle || w.weaponType == PlasmaGun)
  {
    Projectile(w.damage, 0.0, w.projectileLifetime, w.projectileSize, owner, Some(w.weaponType),
               w.gravityScale, w.explosionRadius, w.pierceCount, LeavesTrail(w.weaponType), w.projectileColor)
  }

  /** `Projectile::is_expired`. */
  predicate IsExpired(p: Projectile)
  {
    p.lifetime >= p.maxLifetime
  }

  /** One tick of ageing, as `projectile_system` does first. */
  function Age(p: Projectile, dt: real): (r: Projectile)
    ensures r.lifetime == p.lifetime + dt && r.(lifetime := p.lifetime) == p
  {
    p.(lifetime := p.lifetime + dt)
  }

  /** A fresh shot of any catalog weapon is alive, and only the rocket, the
      laser and the plasma gun draw a trail. */
  lemma CatalogShotsStartAlive(t: WeaponType, owner: Owner)
    ensures !IsExpired(FromWeapon(MakeWeapon(t), owner))
    ensures FromWeapon(MakeWeapon(t), owner).hasTrail <==> t != Pistol && t != Shotgun
  {
  }

  /** Ageing by non-negative steps never revives an expired projectile, and a
      live one expires once its accumulated age reaches its lifetime. */
  lemma {:induction false} AgeingIsMonotone(p: Projectile, dt: real)
    requires dt >= 0.0
    ensures IsExpired(p) ==> IsExpired(Age(p, dt))
    ensures IsExpired(Age(p, dt)) <==> p.lifetime + dt >= p.maxLifetime
  {
  }

  /** Ageing `n` ticks of `dt`. */
  function AgeTimes(p: Projectile, dt: real, n: nat): (r: Projectile)
    ensures r.(lifetime := p.lifetime) == p
    decreases n
  {
    if n == 0 then p else AgeTimes(Age(p, dt), dt, n - 1)
  }

  /** After `n` ticks the age has grown by `n * dt`, so a projectile with a
      positive step and a finite lifetime eventually expires. */
  lemma {:induction false} AgeTimesAdds(p: Projectile, dt: real, n: nat)
    ensures AgeTimes(p, dt, n).lifetime == p.lifetime + n as real * dt
    decreases n
  {
    if n > 0 {
      AgeTimesAdds(Age(p, dt), dt, n - 1);
    }
  }
}
