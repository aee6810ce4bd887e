/** The player components (systems/player/mod.rs, lines 12-82): the player's
    health and energy, and the controller with its jump, spin and shot-timer
    state and its weapon inventory. The movement and shooting systems are in
    `player_systems.dfy`. */
module Players {
  import opened Core
  import opened Weapons

  datatype Player = Player(size: Vec2, health: real, maxHealth: real, energy: real, maxEnergy: real)

  /** `Player::new`. */
  function NewPlayer(): (p: Player)
    ensures p.size == Vec2(24.0, 40.0) && p.health == p.maxHealth == 100.0 && p.energy == p.maxEnergy == 100.0
  {
    Player(Vec2(24.0, 40.0), 100.0, 100.0, 100.0, 100.0)
  }

  /** Every weapon has a positive fire rate, so a cooldown. */
  predicate Rated(weapons: seq<Weapon>)
  {
    forall i :: 0 <= i < |weapons| ==> weapons[i].fireRate > 0.0
  }

  /** Writing back a weapon with a positive fire rate keeps the inventory
      rated. */
  lemma {:induction false} RatedAfterSet(inv: WeaponInventory, w: Weapon)
    requires inv.Valid()
    ensures Rated(inv.weapons) && w.fireRate > 0.0 ==> Rated(SetCurrentWeapon(inv, w).weapons)
  {
    var r := SetCurrentWeapon(inv, w);
    if Rated(inv.weapons) && w.fireRate > 0.0 {
      forall i | 0 <= i < |r.weapons|
        ensures r.weapons[i].fireRate > 0.0
      {
        if i == inv.currentIndex {
          assert r.weapons[i] == CurrentWeapon(r);
        }
      }
    }
  }

  datatype PlayerController = PlayerController(
    speed: real,
    jumpForce: real,
    doubleJumpForce: real,
    isGrounded: bool,
    jumpCount: nat,
    maxJumps: nat,
    isSpinning: bool,
    spinRotation: real,
    spinSpeed: real,
    shootTimer: real,
    weaponInventory: WeaponInventory)
  {
    /** The inventory designates a weapon, every weapon has a positive fire
        rate (so its cooldown exists), at least the ground jump is allowed and
        the jump count stays within the allowance. */
    predicate Valid()
    {
      weaponInventory.Valid() && Rated(weaponInventory.weapons) &&
      1 <= maxJumps && jumpCount <= maxJumps
    }
  }

  /** `PlayerController::new` (and `Default`). */
  function NewPlayerController(): (c: PlayerController)
    ensures c.Valid()
    ensures c.speed == 400.0 && c.jumpForce == 600.0 && c.doubleJumpForce == 500.0
    ensures !c.isGrounded && c.jumpCount == 0 && c.maxJumps == 2
    ensures !c.isSpinning && c.spinRotation == 0.0 && c.spinSpeed == 720.0 && c.shootTimer == 0.0
    ensures c.weaponInventory == NewInventory()
  {
    PlayerController(400.0, 600.0, 500.0, false, 0, 2, false, 0.0, 720.0, 0.0, NewInventory())
  }

  /** `can_shoot`. */
  predicate CanShoot(c: PlayerController)
  {
    c.shootTimer <= 0.0
  }

  /** `reset_shoot_timer`: the current weapon's cooldown. */
  function ResetShootTimer(c: PlayerController): (r: PlayerController)
    requires c.Valid()
    ensures r.Valid() && !CanShoot(r)
    ensures r == c.(shootTimer := Cooldown(CurrentWeapon(c.weaponInventory)))
  {
    c.(shootTimer := Cooldown(CurrentWeapon(c.weaponInventory)))
  }

  /** `update_timer`: counts down only while positive. */
  function UpdateTimer(c: PlayerController, dt: real): (r: PlayerController)
    ensures c.shootTimer > 0.0 ==> r == c.(shootTimer := c.shootTimer - dt)
    ensures c.shootTimer <= 0.0 ==> r == c
  {
    if c.shootTimer > 0.0 then c.(shootTimer := c.shootTimer - dt) else c
  }

  /** After a shot with the weapon of fire rate `f`, `f * dt >= 1` means a
      single tick of `dt` is enough to shoot again: the rate of fire is the
      weapon's. */
  lemma {:induction false} ShotTimerMatchesFireRate(c: PlayerController, dt: real)
    requires c.Valid() && dt >= 0.0
    requires CurrentWeapon(c.weaponInventory).fireRate * dt >= 1.0
    ensures CanShoot(UpdateTimer(ResetShootTimer(c), dt))
  {
    var w := CurrentWeapon(c.weaponInventory);
    var cd := Cooldown(w);
    assert cd * w.fireRate == 1.0;
    assert cd <= dt;
  }
}
