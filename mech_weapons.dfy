/** Mech weapons (systems/mech/weapons.rs): the four weapon kinds, their
    projectiles, and the primary/secondary inventory with cooldowns. */
module MechWeapons {
  import opened Core
  import opened Projectiles

  datatype MechWeaponType = PlasmaCanon | MissileLauncher | Railgun | FlameThrower

  datatype MechWeapon = MechWeapon(
    weaponType: MechWeaponType,
    damage: real,
    fireRate: real,
    projectileSpeed: real,
    projectileSize: Vec2,
    energyCost: real,
    projectileColor: Color,
    splashRadius: Option<real>)

  /** The constructors `plasma_canon`, `missile_launcher`, `railgun` and
      `flamethrower`. */
  function MakeMechWeapon(t: MechWeaponType): (w: MechWeapon)
    ensures w.weaponType == t && w.fireRate > 0.0 && w.damage > 0.0
    ensures w.splashRadius.None? <==> t == Railgun
  {
    match t
    case PlasmaCanon => MechWeapon(PlasmaCanon, 50.0, 2.0, 800.0, Vec2(20.0, 20.0), 10.0,
                                   Color(100, 200, 255, 255), Some(50.0))
    case MissileLauncher => MechWeapon(MissileLauncher, 100.0, 0.5, 600.0, Vec2(16.0, 8.0), 25.0,
                                       Color(255, 150, 50, 255), Some(100.0))
    case Railgun => MechWeapon(Railgun, 150.0, 0.33, 2000.0, Vec2(30.0, 4.0), 40.0,
                               Color(255, 255, 100, 255), None)
    case FlameThrower => MechWeapon(FlameThrower, 10.0, 10.0, 400.0, Vec2(15.0, 15.0), 2.0,
                                    Color(255, 100, 50, 255), Some(30.0))
  }

  /** `cooldown_time`: the inverse of the fire rate. */
  function CooldownTime(w: MechWeapon): (c: real)
    requires w.fireRate > 0.0
    ensures c > 0.0 && c * w.fireRate == 1.0
  {
    1.0 / w.fireRate
  }

  /** `to_projectile`: a player-owned shot living three seconds, exploding
      with the splash radius when there is one. */
  function ToProjectile(w: MechWeapon): (p: Projectile)
    ensures p.owner == PlayerOwner && p.damage == w.damage && p.size == w.projectileSize
    ensures p.color == w.projectileColor && p.maxLifetime == 3.0 && p.lifetime == 0.0
    ensures p.explosionRadius == (if w.splashRadius.Some? then w.splashRadius.value else 0.0)
    ensures p.pierceCount == 0 && p.gravityScale == 1.0 && p.weaponType == None && !p.hasTrail
  {
    var p := NewProjectile(w.damage, PlayerOwner).(size := w.projectileSize, color := w.projectileColor,
                                                    maxLifetime := 3.0);
    match w.splashRadius
    case Some(radius) => p.(explosionRadius := radius)
    case None => p
  }

  /** Only the railgun's shot does not explode. */
  lemma ExplodingShots(t: MechWeaponType)
    ensures ToProjectile(MakeMechWeapon(t)).explosionRadius > 0.0 <==> t != Railgun
    ensures !IsExpired(ToProjectile(MakeMechWeapon(t)))
  {
  }

  datatype MechWeaponInventory = MechWeaponInventory(primary: MechWeapon, secondary: MechWeapon,
                                                     primaryCooldown: real, secondaryCooldown: real)
  {
    /** Both weapons have a cooldown. */
    predicate Valid()
    {
      primary.fireRate > 0.0 && secondary.fireRate > 0.0
    }
  }

  /** `MechWeaponInventory::new`: plasma primary, missiles secondary, ready. */
  function NewMechWeaponInventory(): (inv: MechWeaponInventory)
    ensures inv.Valid() && CanFirePrimary(inv) && CanFireSecondary(inv)
    ensures inv.primary == MakeMechWeapon(PlasmaCanon) && inv.secondary == MakeMechWeapon(MissileLauncher)
    ensures inv.primaryCooldown == 0.0 && inv.secondaryCooldown == 0.0
  {
    MechWeaponInventory(MakeMechWeapon(PlasmaCanon), MakeMechWeapon(MissileLauncher), 0.0, 0.0)
  }

  /** `update`: both cooldowns drop by `dt`, never below 0. */
  function UpdateWeapons(inv: MechWeaponInventory, dt: real): (r: MechWeaponInventory)
    ensures r.primaryCooldown == Max(inv.primaryCooldown - dt, 0.0)
    ensures r.secondaryCooldown == Max(inv.secondaryCooldown - dt, 0.0)
    ensures r.primary == inv.primary && r.secondary == inv.secondary
  {
    inv.(primaryCooldown := Max(inv.primaryCooldown - dt, 0.0),
         secondaryCooldown := Max(inv.secondaryCooldown - dt, 0.0))
  }

  predicate CanFirePrimary(inv: MechWeaponInventory)
  {
    inv.primaryCooldown <= 0.0
  }

  predicate CanFireSecondary(inv: MechWeaponInventory)
  {
    inv.secondaryCooldown <= 0.0
  }

  /** `fire_primary`. */
  function FirePrimary(inv: MechWeaponInventory): (r: MechWeaponInventory)
    requires inv.Valid()
    ensures r.Valid() && !CanFirePrimary(r)
    ensures r == inv.(primaryCooldown := CooldownTime(inv.primary))
  {
    inv.(primaryCooldown := CooldownTime(inv.primary))
  }

  /** `fire_secondary`. */
  function FireSecondary(inv: MechWeaponInventory): (r: MechWeaponInventory)
    requires inv.Valid()
    ensures r.Valid() && !CanFireSecondary(r)
    ensures r == inv.(secondaryCooldown := CooldownTime(inv.secondary))
  {
    inv.(secondaryCooldown := CooldownTime(inv.secondary))
  }

  /** Firing one weapon leaves the other one's readiness alone, and after a
      shot an update of at least the cooldown makes the weapon ready again. */
  lemma {:induction false} CooldownsAreIndependent(inv: MechWeaponInventory, dt: real)
    requires inv.Valid()
    ensures CanFireSecondary(FirePrimary(inv)) == CanFireSecondary(inv)
    ensures CanFirePrimary(FireSecondary(inv)) == CanFirePrimary(inv)
    ensures dt >= CooldownTime(inv.primary) ==> CanFirePrimary(UpdateWeapons(FirePrimary(inv), dt))
    ensures dt < CooldownTime(inv.primary) ==> !CanFirePrimary(UpdateWeapons(FirePrimary(inv), dt))
  {
  }
}
