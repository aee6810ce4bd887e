/** The mech components (systems/mech/mod.rs): the mech's health, energy and
    occupancy, and the controller's three cooldowns. */
module Mechs {
  import opened Core

  type EntityId = nat

  datatype Mech = Mech(
    size: Vec2,
    health: real,
    maxHealth: real,
    energy: real,
    maxEnergy: real,
    boostSpeed: real,
    normalSpeed: real,
    jumpPower: real,
    isOccupied: bool,
    pilotEntity: Option<EntityId>)
  {
    /** The occupancy protocol: a mech is occupied exactly when it has a
        pilot. */
    predicate Consistent()
    {
      isOccupied <==> pilotEntity.Some?
    }
  }

  /** `Mech::new`: an empty, fully charged mech. */
  function NewMech(): (m: Mech)
    ensures m.Consistent() && !m.isOccupied
    ensures m.size == Vec2(80.0, 120.0) && m.health == m.maxHealth == 500.0
    ensures m.energy == m.maxEnergy == 200.0
    ensures m.boostSpeed == 800.0 && m.normalSpeed == 400.0 && m.jumpPower == 1200.0
  {
    Mech(Vec2(80.0, 120.0), 500.0, 500.0, 200.0, 200.0, 800.0, 400.0, 1200.0, false, None)
  }

  /** `take_damage`: health drops by the amount, never below zero. */
  function TakeDamage(m: Mech, amount: real): (r: Mech)
    ensures r.health >= 0.0
    ensures r.health == Max(m.health - amount, 0.0) && r.(health := m.health) == m
  {
    m.(health := Max(m.health - amount, 0.0))
  }

  /** `is_destroyed`. */
  predicate IsDestroyed(m: Mech)
  {
    m.health <= 0.0
  }

  /** `use_energy`: pays `amount` when there is enough energy, otherwise
      refuses and changes nothing. */
  function UseEnergy(m: Mech, amount: real): (r: (Mech, bool))
    ensures r.1 <==> m.energy >= amount
    ensures r.1 ==> r.0 == m.(energy := m.energy - amount)
    ensures !r.1 ==> r.0 == m
  {
    if m.energy >= amount then (m.(energy := m.energy - amount), true) else (m, false)
  }

  /** `regenerate_energy`: adds `amount * dt`, capped at the maximum. */
  function RegenerateEnergy(m: Mech, amount: real, dt: real): (r: Mech)
    ensures r.energy <= m.maxEnergy
    ensures r.energy == Min(m.energy + amount * dt, m.maxEnergy) && r.(energy := m.energy) == m
  {
    m.(energy := Min(m.energy + amount * dt, m.maxEnergy))
  }

  /** `can_boost`. */
  predicate CanBoost(m: Mech)
  {
    m.energy >= 10.0
  }

  const ActiveColor: Color := Color(100, 150, 255, 255)
  const InactiveColor: Color := Color(80, 80, 100, 255)

  /** `get_color`: bright when piloted, grey otherwise. */
  function GetColor(m: Mech): (c: Color)
    ensures c == if m.isOccupied then ActiveColor else InactiveColor
  {
    if m.isOccupied then Color(100, 150, 255, 255) else Color(80, 80, 100, 255)
  }

  /** Energy bookkeeping: paying never leaves the energy negative when it
      started non-negative, a refused payment is exactly when energy is short,
      and regeneration keeps the energy within `[0, max]`. */
  lemma {:induction false} EnergyStaysInRange(m: Mech, amount: real, regen: real, dt: real)
    requires 0.0 <= m.energy <= m.maxEnergy && amount >= 0.0 && regen >= 0.0 && dt >= 0.0
    ensures 0.0 <= UseEnergy(m, amount).0.energy <= m.maxEnergy
    ensures 0.0 <= RegenerateEnergy(m, regen, dt).energy <= m.maxEnergy
  {
    assert regen * dt >= 0.0;
  }

  /** Damage is cumulative and saturates: two hits are one hit of the summed
      amount, and a destroyed mech stays destroyed. */
  lemma {:induction false} DamageAccumulates(m: Mech, a: real, b: real)
    requires m.health >= 0.0 && a >= 0.0 && b >= 0.0
    ensures TakeDamage(TakeDamage(m, a), b) == TakeDamage(m, a + b)
    ensures IsDestroyed(m) ==> IsDestroyed(TakeDamage(m, a))
  {
  }

  datatype MechController = MechController(isBoosting: bool, boostCooldown: real, stompCooldown: real,
                                           weaponCooldown: real)

  /** `MechController::new`. */
  function NewMechController(): (c: MechController)
    ensures !c.isBoosting && c.boostCooldown == 0.0 && c.stompCooldown == 0.0 && c.weaponCooldown == 0.0
  {
    MechController(false, 0.0, 0.0, 0.0)
  }

  /** `MechController::update`: every cooldown drops by `dt`, never below 0. */
  function UpdateController(c: MechController, dt: real): (r: MechController)
    ensures r.boostCooldown == Max(c.boostCooldown - dt, 0.0)
    ensures r.stompCooldown == Max(c.stompCooldown - dt, 0.0)
    ensures r.weaponCooldown == Max(c.weaponCooldown - dt, 0.0)
    ensures r.isBoosting == c.isBoosting
  {
    c.(boostCooldown := Max(c.boostCooldown - dt, 0.0),
       stompCooldown := Max(c.stompCooldown - dt, 0.0),
       weaponCooldown := Max(c.weaponCooldown - dt, 0.0))
  }

  /** `can_stomp`. */
  predicate CanStomp(c: MechController)
  {
    c.stompCooldown <= 0.0
  }

  /** `do_stomp`: two seconds before the next stomp. */
  function DoStomp(c: MechController): (r: MechController)
    ensures r == c.(stompCooldown := 2.0) && !CanStomp(r)
  {
    c.(stompCooldown := 2.0)
  }

  /** After a stomp, the stomp is available again exactly once the updates
      have covered two seconds (one update of `dt` shown). */
  lemma {:induction false} StompRecharges(c: MechController, dt: real)
    ensures CanStomp(UpdateController(DoStomp(c), dt)) <==> dt >= 2.0
    ensures UpdateController(DoStomp(c), dt).stompCooldown >= 0.0
  {
  }
}
