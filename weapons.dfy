/** The player's weapons: the catalog, ammunition and the cyclic inventory
    (systems/weapons/mod.rs). A weapon and an inventory are component values;
    each `&mut self` method is a function returning the updated value. */
module Weapons {
  import opened Core

  datatype WeaponType = Pistol | Shotgun | RocketLauncher | LaserRifle | PlasmaGun

  datatype Weapon = Weapon(
    weaponType: WeaponType,
    damage: real,
    projectileSpeed: real,
    projectileForce: real,
    fireRate: real,
    spread: real,
    projectileCount: nat,
    projectileSize: Vec2,
    projectileColor: Color,
    projectileLifetime: real,
    gravityScale: real,
    explosionRadius: real,
    pierceCount: nat,
    ammo: Option<nat>,
    maxAmmo: Option<nat>)

  /** The catalog constructors `Weapon::pistol` … `Weapon::plasma_gun`. */
  function MakeWeapon(t: WeaponType): (w: Weapon)
    ensures w.weaponType == t
    ensures w.ammo == w.maxAmmo
    ensures w.ammo.None? <==> t == Pistol
    ensures w.fireRate > 0.0 && w.damage > 0.0 && w.projectileCount >= 1
    ensures w.projectileCount > 1 <==> t == Shotgun
    ensures w.explosionRadius > 0.0 <==> (t == RocketLauncher || t == PlasmaGun)
    ensures w.pierceCount > 0 <==> (t == LaserRifle || t == PlasmaGun)
  {
    match t
    case Pistol => Weapon(Pistol, 20.0, 1200.0, 1200.0, 4.0, 0.05, 1, Vec2(6.0, 6.0),
                          Color(255, 255, 100, 255), 2.0, 0.3, 0.0, 0, None, None)
    case Shotgun => Weapon(Shotgun, 15.0, 1500.0, 1800.0, 1.5, 0.3, 8, Vec2(4.0, 4.0),
                           Color(255, 200, 50, 255), 0.5, 0.1, 0.0, 0, Some(50), Some(50))
    case RocketLauncher => Weapon(RocketLauncher, 100.0, 800.0, 1000.0, 0.8, 0.02, 1, Vec2(12.0, 8.0),
                                  Color(255, 100, 50, 255), 5.0, 0.2, 100.0, 0, Some(20), Some(20))
    case LaserRifle => Weapon(LaserRifle, 30.0, 3000.0, 3000.0, 10.0, 0.01, 1, Vec2(20.0, 3.0),
                              Color(255, 50, 255, 255), 1.0, 0.0, 0.0, 3, Some(200), Some(200))
    case PlasmaGun => Weapon(PlasmaGun, 50.0, 1000.0, 1200.0, 2.0, 0.08, 1, Vec2(16.0, 16.0),
                             Color(100, 255, 255, 255), 3.0, 0.15, 50.0, 1, Some(100), Some(100))
  }

  /** `Weapon::get_cooldown`: seconds between shots, the inverse of the fire
      rate. */
  function Cooldown(w: Weapon): (c: real)
    requires w.fireRate > 0.0
    ensures c > 0.0 && c * w.fireRate == 1.0
  {
    1.0 / w.fireRate
  }

  /** `Weapon::consume_ammo`: infinite ammunition always fires; a positive
      count fires and drops by one; an empty magazine refuses. */
  function ConsumeAmmo(w: Weapon): (r: (Weapon, bool))
    ensures w.ammo.None? ==> r == (w, true)
    ensures w.ammo.Some? && w.ammo.value > 0 ==> r == (w.(ammo := Some(w.ammo.value - 1)), true)
    ensures w.ammo == Some(0) ==> r == (w, false)
  {
    match w.ammo
    case None => (w, true)
    case Some(n) => if n > 0 then (w.(ammo := Some(n - 1)), true) else (w, false)
  }

  /** `Weapon::reload`: refill to the maximum when there is one. */
  function Reload(w: Weapon): (r: Weapon)
    ensures w.maxAmmo.Some? ==> r == w.(ammo := w.maxAmmo)
    ensures w.maxAmmo.None? ==> r == w
  {
    if w.maxAmmo.Some? then w.(ammo := w.maxAmmo) else w
  }

  /** A magazine of `n` rounds fires exactly `n` times: after `n` successful
      shots the next one is refused, and a reload restores the full magazine. */
  lemma {:induction false} MagazineEmptiesAfterCapacity(w: Weapon, n: nat)
    requires w.ammo == Some(n)
    ensures ConsumeAmmoTimes(w, n) == (w.(ammo := Some(0)), true)
    ensures !ConsumeAmmo(ConsumeAmmoTimes(w, n).0).1
    ensures w.maxAmmo.Some? ==> Reload(ConsumeAmmoTimes(w, n).0) == Reload(w)
    decreases n
  {
    if n > 0 {
      var w' := ConsumeAmmo(w).0;
      MagazineEmptiesAfterCapacity(w', n - 1);
    }
  }

  /** Fire `n` times in a row; the flag says whether every shot succeeded. */
  function ConsumeAmmoTimes(w: Weapon, n: nat): (Weapon, bool)
    decreases n
  {
    if n == 0 then (w, true)
    else
      var (w', ok) := ConsumeAmmo(w);
      var (w'', rest) := ConsumeAmmoTimes(w', n - 1);
      (w'', ok && rest)
  }

  /** The order of the catalog in a fresh inventory. */
  const Catalog: seq<WeaponType> := [Pistol, Shotgun, RocketLauncher, LaserRifle, PlasmaGun]

  datatype WeaponInventory = WeaponInventory(weapons: seq<Weapon>, currentIndex: nat)
  {
    /** The index always designates a weapon. */
    predicate Valid()
    {
      currentIndex < |weapons|
    }
  }

  /** `WeaponInventory::new`: the five catalog weapons, the pistol selected. */
  function NewInventory(): (inv: WeaponInventory)
    ensures inv.Valid() && |inv.weapons| == 5 && inv.currentIndex == 0
    ensures forall i :: 0 <= i < 5 ==> inv.weapons[i] == MakeWeapon(Catalog[i])
  {
    WeaponInventory(seq(5, i requires 0 <= i < 5 => MakeWeapon(Catalog[i])), 0)
  }

  /** `current_weapon`. */
  function CurrentWeapon(inv: WeaponInventory): (w: Weapon)
    requires inv.Valid()
    ensures w in inv.weapons
  {
    inv.weapons[inv.currentIndex]
  }

  /** Writes back the selected weapon (what `current_weapon_mut` gives access
      to). */
  function SetCurrentWeapon(inv: WeaponInventory, w: Weapon): (r: WeaponInventory)
    requires inv.Valid()
    ensures r.Valid() && CurrentWeapon(r) == w && r.currentIndex == inv.currentIndex
    ensures |r.weapons| == |inv.weapons|
    ensures forall i :: 0 <= i < |inv.weapons| && i != inv.currentIndex ==> r.weapons[i] == inv.weapons[i]
  {
    inv.(weapons := inv.weapons[inv.currentIndex := w])
  }

  /** `switch_weapon`: select `index` when it exists, else do nothing. */
  function SwitchWeapon(inv: WeaponInventory, index: nat): (r: WeaponInventory)
    requires inv.Valid()
    ensures r.Valid() && r.weapons == inv.weapons
    ensures index < |inv.weapons| ==> r.currentIndex == index
    ensures index >= |inv.weapons| ==> r == inv
  {
    if index < |inv.weapons| then inv.(currentIndex := index) else inv
  }

  /** `next_weapon`: one step forward, wrapping past the last weapon. */
  function NextWeapon(inv: WeaponInventory): (r: WeaponInventory)
    requires inv.Valid()
    ensures r.Valid() && r.weapons == inv.weapons
    ensures r.currentIndex == (inv.currentIndex + 1) % |inv.weapons|
  {
    inv.(currentIndex := (inv.currentIndex + 1) % |inv.weapons|)
  }

  /** `previous_weapon`: one step back, wrapping from the first to the last. */
  function PreviousWeapon(inv: WeaponInventory): (r: WeaponInventory)
    requires inv.Valid()
    ensures r.Valid() && r.weapons == inv.weapons
    ensures inv.currentIndex == 0 ==> r.currentIndex == |inv.weapons| - 1
    ensures inv.currentIndex > 0 ==> r.currentIndex == inv.currentIndex - 1
  {
    if inv.currentIndex == 0 then inv.(currentIndex := |inv.weapons| - 1)
    else inv.(currentIndex := inv.currentIndex - 1)
  }

  /** One step of the wrap-around: counting up, or back to 0 past the end. */
  lemma WrapStep(i: nat, n: nat)
    requires i < n
    ensures (i + 1) % n == if i + 1 < n then i + 1 else 0
  {
    if i + 1 < n {
      assert (i + 1) / n == 0;
    } else {
      assert (i + 1) / n == 1;
    }
  }

  /** Next and previous undo each other. */
  lemma {:induction false} NextPreviousInverse(inv: WeaponInventory)
    requires inv.Valid()
    ensures PreviousWeapon(NextWeapon(inv)) == inv
    ensures NextWeapon(PreviousWeapon(inv)) == inv
  {
    var n := |inv.weapons|;
    WrapStep(inv.currentIndex, n);
    WrapStep(PreviousWeapon(inv).currentIndex, n);
  }

  /** `n` presses of "next". */
  function NextTimes(inv: WeaponInventory, n: nat): (r: WeaponInventory)
    requires inv.Valid()
    ensures r.Valid() && r.weapons == inv.weapons
    decreases n
  {
    if n == 0 then inv else NextTimes(NextWeapon(inv), n - 1)
  }

  /** Pressing "next" `a + b` times is pressing it `a` times, then `b` times. */
  lemma {:induction false} NextTimesCompose(inv: WeaponInventory, a: nat, b: nat)
    requires inv.Valid()
    ensures NextTimes(inv, a + b) == NextTimes(NextTimes(inv, a), b)
    decreases a
  {
    if a > 0 {
      NextTimesCompose(NextWeapon(inv), a - 1, b);
    }
  }

  /** Before the end of the list, "next" simply counts up. */
  lemma {:induction false} NextTimesCountsUp(inv: WeaponInventory, n: nat)
    requires inv.Valid() && inv.currentIndex + n < |inv.weapons|
    ensures NextTimes(inv, n) == inv.(currentIndex := inv.currentIndex + n)
    decreases n
  {
    if n > 0 {
      var next := NextWeapon(inv);
      WrapStep(inv.currentIndex, |inv.weapons|);
      NextTimesCountsUp(next, n - 1);
    }
  }

  /** Pressing "next" once per weapon comes back to the selected weapon. */
  lemma {:induction false} FullRoundTrip(inv: WeaponInventory)
    requires inv.Valid()
    ensures NextTimes(inv, |inv.weapons|) == inv
  {
    var len, i := |inv.weapons|, inv.currentIndex;
    var toLast := len - 1 - i;
    NextTimesCountsUp(inv, toLast);
    var atLast := inv.(currentIndex := len - 1);
    var atFirst := inv.(currentIndex := 0);
    assert NextTimes(atLast, 1) == atFirst by {
      WrapStep(len - 1, len);
    }
    NextTimesCountsUp(atFirst, i);
    NextTimesCompose(inv, toLast, 1);
    NextTimesCompose(inv, toLast + 1, i);
  }
}
