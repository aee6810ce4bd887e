/** The two player systems of systems/player/mod.rs: movement (walking, the
    ground jump and the energy-powered double jump with its spin, gravity,
    tile collision, landing and energy regeneration; lines 84-207) and
    shooting (weapon selection, the fire gate, ammunition and the volley of
    projectiles; lines 209-309). Each entity's step is specified by a
    function of its components; the systems apply it to every matching
    entity of the world. */
module PlayerSystems {
  import opened Core
  import Physics
  import opened Levels
  import opened Weapons
  import opened Players
  import opened Input
  import opened AxisMove
  import opened Ecs
  import Cameras

  /** Downward force applied to a player every frame. */
  const PlayerGravity: real := 800.0
  /** Energy a double jump costs, and energy regained per grounded second. */
  const DoubleJumpCost: real := 20.0
  const EnergyRegen: real := 30.0

  /** The four components the movement query hands out. */
  datatype Rig = Rig(player: Player, transform: Transform, body: Physics.RigidBody, controller: PlayerController)

  // ---------------------------------------------------------------- movement

  /** The horizontal intent: A/Left pull left, D/Right pull right, both
      cancel out. */
  function HorizontalInput(down: set<Key>): (mx: real)
    ensures mx == -1.0 || mx == 0.0 || mx == 1.0
    ensures mx < 0.0 <==> (A in down || Left in down) && !(D in down || Right in down)
    ensures mx > 0.0 <==> (D in down || Right in down) && !(A in down || Left in down)
  {
    (if A in down || Left in down then -1.0 else 0.0) + (if D in down || Right in down then 1.0 else 0.0)
  }

  /** Space, W or Up went down this frame. */
  predicate JumpPressed(pressed: set<Key>)
  {
    Space in pressed || W in pressed || Up in pressed
  }

  /** A double jump is possible: airborne, an air jump left, and energy for
      it. */
  predicate CanDoubleJump(s: Rig)
  {
    !s.controller.isGrounded && s.controller.jumpCount < s.controller.maxJumps && s.player.energy >= DoubleJumpCost
  }

  /** Lines 106-123: from the ground a jump of `jump_force`; in the air, when
      allowed, a double jump of `double_jump_force` that starts a spin and
      costs energy; otherwise nothing. */
  function Jump(s: Rig, pressed: set<Key>): (r: Rig)
    ensures r.transform == s.transform && r.player.(energy := s.player.energy) == s.player
    ensures r.body.(velocity := s.body.velocity) == s.body && r.body.velocity.x == s.body.velocity.x
    ensures JumpPressed(pressed) && s.controller.isGrounded ==>
              r.body.velocity.y == -s.controller.jumpForce &&
              r.controller == s.controller.(isGrounded := false, jumpCount := 1) && r.player == s.player
    ensures JumpPressed(pressed) && CanDoubleJump(s) ==>
              r.body.velocity.y == -s.controller.doubleJumpForce &&
              r.controller == s.controller.(jumpCount := s.controller.jumpCount + 1, isSpinning := true,
                                            spinRotation := 0.0) &&
              r.player.energy == Max(s.player.energy - DoubleJumpCost, 0.0)
    ensures !(JumpPressed(pressed) && (s.controller.isGrounded || CanDoubleJump(s))) ==> r == s
  {
    if !JumpPressed(pressed) then s
    else if s.controller.isGrounded then
      s.(body := s.body.(velocity := s.body.velocity.(y := -s.controller.jumpForce)),
         controller := s.controller.(isGrounded := false, jumpCount := 1))
    else if CanDoubleJump(s) then
      s.(body := s.body.(velocity := s.body.velocity.(y := -s.controller.doubleJumpForce)),
         controller := s.controller.(jumpCount := s.controller.jumpCount + 1, isSpinning := true, spinRotation := 0.0),
         player := s.player.(energy := Max(s.player.energy - DoubleJumpCost, 0.0)))
    else s
  }

  /** Lines 125-126: the horizontal velocity is the normalised intent times
      the walking speed (normalising a unit or zero intent changes nothing). */
  function Walk(s: Rig, down: set<Key>): (r: Rig)
    ensures r.body.velocity.x == HorizontalInput(down) * s.controller.speed
    ensures r == s.(body := s.body.(velocity := s.body.velocity.(x := r.body.velocity.x)))
  {
    var mx := HorizontalInput(down);
    var movement := NormalizeOrZero(Vec2(mx, 0.0), Abs(mx));
    s.(body := s.body.(velocity := s.body.velocity.(x := movement.x * s.controller.speed)))
  }

  /** Ends a spin, if one is running, and puts the sprite upright. */
  function StopSpin(s: Rig): (r: Rig)
    ensures !r.controller.isSpinning && r.controller.spinRotation == (if s.controller.isSpinning then 0.0 else s.controller.spinRotation)
    ensures s.controller.isSpinning ==> r.transform.rotation == 0.0
    ensures !s.controller.isSpinning ==> r == s
    ensures r.player == s.player && r.body == s.body && r.transform.position == s.transform.position
    ensures r.controller.(isSpinning := s.controller.isSpinning, spinRotation := s.controller.spinRotation) == s.controller
  {
    if s.controller.isSpinning then
      s.(controller := s.controller.(isSpinning := false, spinRotation := 0.0),
         transform := s.transform.(rotation := 0.0))
    else s
  }

  /** Lines 128-139: a running spin advances by `spin_speed * dt` degrees and
      ends after a full turn. */
  function Spin(s: Rig, dt: real): (r: Rig)
    ensures !s.controller.isSpinning ==> r == s
    ensures s.controller.isSpinning ==> r.controller.spinRotation < 360.0
    ensures r.controller.isSpinning ==> r.transform.rotation == ToRadians(r.controller.spinRotation)
    ensures r.player == s.player && r.body == s.body && r.transform.position == s.transform.position
    ensures r.controller.(isSpinning := s.controller.isSpinning, spinRotation := s.controller.spinRotation) == s.controller
  {
    if !s.controller.isSpinning then s
    else
      var rot := s.controller.spinRotation + s.controller.spinSpeed * dt;
      var spun := s.(controller := s.controller.(spinRotation := rot), transform := s.transform.(rotation := ToRadians(rot)));
      if rot >= 360.0 then StopSpin(spun) else spun
  }

  /** Lines 168-183: the outcome of the vertical test. A free fall leaves
      the ground; a blocked fall (`vy > 0`) is a landing that resets the jumps
      and the spin; a blocked rise leaves both alone. */
  function Land(s: Rig, res: Resolved, vy: real): (r: Rig)
    ensures r.transform.position == res.position && r.body.velocity == res.velocity
    ensures !res.blockedY ==> !r.controller.isGrounded
    ensures res.blockedY && vy > 0.0 ==> r.controller.isGrounded && r.controller.jumpCount == 0 && !r.controller.isSpinning
    ensures res.blockedY && vy <= 0.0 ==> r.controller == s.controller
    ensures r.player == s.player
  {
    var moved := s.(transform := s.transform.(position := res.position), body := s.body.(velocity := res.velocity));
    if !res.blockedY then moved.(controller := moved.controller.(isGrounded := false))
    else if vy > 0.0 then StopSpin(moved.(controller := moved.controller.(isGrounded := true, jumpCount := 0)))
    else moved
  }

  /** The rectangle two pixels below the body, used to detect standing on
      something (lines 185-190). */
  function GroundProbe(pos: Vec2, size: Vec2): Rect
  {
    CenteredRect(Vec2(pos.x, pos.y + 2.0), size)
  }

  /** Lines 192-205: standing on something while not rising grounds the
      player, resets the jumps and the spin, and recharges energy up to the
      maximum. */
  function Settle(s: Rig, onGround: bool, dt: real): (r: Rig)
    ensures !(onGround && s.body.velocity.y >= 0.0) ==> r == s
    ensures onGround && s.body.velocity.y >= 0.0 ==>
              r.controller.isGrounded && r.controller.jumpCount == 0 && !r.controller.isSpinning
    ensures onGround && s.body.velocity.y >= 0.0 && s.player.energy < s.player.maxEnergy ==>
              r.player.energy == Min(s.player.energy + EnergyRegen * dt, s.player.maxEnergy)
    ensures s.player.energy >= s.player.maxEnergy ==> r.player == s.player
    ensures r.transform.position == s.transform.position && r.body == s.body
    ensures r.player.(energy := s.player.energy) == s.player
  {
    if onGround && s.body.velocity.y >= 0.0 then
      var g := StopSpin(s.(controller := s.controller.(isGrounded := true, jumpCount := 0)));
      if g.player.energy < g.player.maxEnergy
      then g.(player := g.player.(energy := Min(g.player.energy + EnergyRegen * dt, g.player.maxEnergy)))
      else g
    else s
  }

  /** The state just before the collision tests: input, spin and physics
      applied. */
  function Propel(s: Rig, down: set<Key>, pressed: set<Key>, dt: real): (r: Rig)
    requires s.body.mass != 0.0
    ensures r.transform.position == s.transform.position && r.player.size == s.player.size
    ensures r.controller.maxJumps == s.controller.maxJumps && r.controller.weaponInventory == s.controller.weaponInventory
    ensures r.body.mass == s.body.mass
  {
    var s1 := Spin(Walk(Jump(s, pressed), down), dt);
    s1.(body := Physics.Integrate(Physics.ApplyForce(s1.body, Vec2(0.0, PlayerGravity)), dt))
  }

  /** One frame of `player_movement_system` for one player, stated with the
      collision predicate of the level. */
  ghost function MoveStep(level: Level, down: set<Key>, pressed: set<Key>, dt: real, s: Rig): Rig
    requires level.Valid() && s.body.mass != 0.0
  {
    var p := Propel(s, down, pressed, dt);
    var pos, vel, size := p.transform.position, p.body.velocity, p.player.size;
    var blockedX := Collides(level, XProbe(pos, vel, size, dt));
    var blockedY := Collides(level, YProbe(pos, vel, size, dt, blockedX));
    var landed := Land(p, Commit(pos, vel, dt, blockedX, blockedY), vel.y);
    Settle(landed, Collides(level, GroundProbe(landed.transform.position, size)), dt)
  }

  /** The movement step as the system performs it, with the level's tile
      scans. */
  method MovePlayer(level: Level, down: set<Key>, pressed: set<Key>, dt: real, s: Rig) returns (r: Rig)
    requires level.Valid() && s.body.mass != 0.0
    ensures r == MoveStep(level, down, pressed, dt, s)
  {
    var p := Propel(s, down, pressed, dt);
    var res := ResolveAxes(level, p.transform.position, p.body.velocity, p.player.size, dt);
    var landed := Land(p, res, p.body.velocity.y);
    var onGround := CheckCollision(level, GroundProbe(landed.transform.position, p.player.size));
    r := Settle(landed, onGround, dt);
  }

  /** What the movement step keeps: a valid controller, energy within
      `[0, max]`, a grounded player has used no jump and is not spinning, and
      the spin angle is below a full turn (zero when not spinning). */
  predicate Steady(s: Rig)
  {
    s.controller.Valid() &&
    0.0 <= s.player.energy <= s.player.maxEnergy &&
    (s.controller.isGrounded ==> s.controller.jumpCount == 0 && !s.controller.isSpinning) &&
    (!s.controller.isSpinning ==> s.controller.spinRotation == 0.0) &&
    s.controller.spinRotation < 360.0
  }

  /** Each phase keeps `Steady`, so the whole step does. */
  lemma {:induction false} PropelKeepsSteady(s: Rig, down: set<Key>, pressed: set<Key>, dt: real)
    requires Steady(s) && s.body.mass != 0.0
    ensures Steady(Propel(s, down, pressed, dt))
  {
    var j := Jump(s, pressed);
    assert Steady(j) by {
      if JumpPressed(pressed) && !s.controller.isGrounded && CanDoubleJump(s) {
        assert j.player.energy == Max(s.player.energy - DoubleJumpCost, 0.0);
      }
    }
    var w := Walk(j, down);
    assert Steady(w);
    var sp := Spin(w, dt);
    assert Steady(sp);
  }

  lemma {:induction false} MoveKeepsSteady(level: Level, down: set<Key>, pressed: set<Key>, dt: real, s: Rig)
    requires level.Valid() && s.body.mass != 0.0 && dt >= 0.0
    requires Steady(s)
    ensures Steady(MoveStep(level, down, pressed, dt, s))
  {
    PropelKeepsSteady(s, down, pressed, dt);
    var p := Propel(s, down, pressed, dt);
    var pos, vel, size := p.transform.position, p.body.velocity, p.player.size;
    var blockedX := Collides(level, XProbe(pos, vel, size, dt));
    var blockedY := Collides(level, YProbe(pos, vel, size, dt, blockedX));
    var landed := Land(p, Commit(pos, vel, dt, blockedX, blockedY), vel.y);
    LandKeepsSteady(p, Commit(pos, vel, dt, blockedX, blockedY), vel.y);
    SettleKeepsSteady(landed, Collides(level, GroundProbe(landed.transform.position, size)), dt);
  }

  /** Landing (or leaving the ground) keeps the controller steady. */
  lemma LandKeepsSteady(s: Rig, res: Resolved, vy: real)
    requires Steady(s)
    ensures Steady(Land(s, res, vy))
  {
  }

  /** Settling on the ground keeps the controller steady and the energy
      within its bounds. */
  lemma SettleKeepsSteady(s: Rig, onGround: bool, dt: real)
    requires Steady(s) && dt >= 0.0
    ensures Steady(Settle(s, onGround, dt))
  {
    var r := Settle(s, onGround, dt);
    if onGround && s.body.velocity.y >= 0.0 && s.player.energy < s.player.maxEnergy {
      assert r.player.energy == Min(s.player.energy + EnergyRegen * dt, s.player.maxEnergy);
    }
  }

  /** A player whose box is clear of solid tiles stays clear: walking, jumping
      and falling never push the player into the level. */
  lemma {:induction false} MoveNeverEntersWalls(level: Level, down: set<Key>, pressed: set<Key>, dt: real, s: Rig)
    requires level.Valid() && s.body.mass != 0.0
    requires !Collides(level, CenteredRect(s.transform.position, s.player.size))
    ensures var r := MoveStep(level, down, pressed, dt, s);
            !Collides(level, CenteredRect(r.transform.position, r.player.size))
  {
    var p := Propel(s, down, pressed, dt);
    NeverEntersWalls(level, p.transform.position, p.body.velocity, p.player.size, dt);
  }

  /** The air-jump allowance: once airborne with every jump used, or without
      the energy for a double jump, pressing jump changes nothing; a double
      jump always uses up one jump and its energy. */
  lemma {:induction false} AirJumpsAreLimited(s: Rig, pressed: set<Key>)
    requires s.controller.Valid() && s.player.energy >= 0.0
    ensures !s.controller.isGrounded && (s.controller.jumpCount == s.controller.maxJumps || s.player.energy < DoubleJumpCost)
            ==> Jump(s, pressed) == s
    ensures var r := Jump(s, pressed);
            !s.controller.isGrounded && r != s ==>
              r.controller.jumpCount == s.controller.jumpCount + 1 <= s.controller.maxJumps &&
              r.player.energy == s.player.energy - DoubleJumpCost && r.controller.isSpinning
  {
  }

  // ---------------------------------------------------------------- shooting

  /** `ProjectileSpawnData` (lines 311-316): where a shot starts, where it
      flies and the weapon that fired it. */
  datatype SpawnData = SpawnData(position: Vec2, direction: Vec2, weapon: Weapon)

  /** Lines 223-244, in order: the number keys select a slot, Q and E step
      back and forth; the weapons themselves are untouched. */
  function Navigate(inv: WeaponInventory, pressed: set<Key>): (r: WeaponInventory)
    requires inv.Valid()
    ensures r.Valid() && r.weapons == inv.weapons
  {
    var i1 := if Num1 in pressed then SwitchWeapon(inv, 0) else inv;
    var i2 := if Num2 in pressed then SwitchWeapon(i1, 1) else i1;
    var i3 := if Num3 in pressed then SwitchWeapon(i2, 2) else i2;
    var i4 := if Num4 in pressed then SwitchWeapon(i3, 3) else i3;
    var i5 := if Num5 in pressed then SwitchWeapon(i4, 4) else i4;
    var i6 := if Q in pressed then PreviousWeapon(i5) else i5;
    if E in pressed then NextWeapon(i6) else i6
  }

  /** Lines 223-247: navigation, then R reloads the selected weapon. */
  function SelectWeapon(inv: WeaponInventory, pressed: set<Key>): (r: WeaponInventory)
    requires inv.Valid()
    ensures r.Valid() && |r.weapons| == |inv.weapons| && r.currentIndex == Navigate(inv, pressed).currentIndex
    ensures forall i :: 0 <= i < |inv.weapons| && i != r.currentIndex ==> r.weapons[i] == inv.weapons[i]
    ensures R !in pressed ==> r.weapons == inv.weapons
    ensures R in pressed ==> r.weapons[r.currentIndex] == Reload(inv.weapons[r.currentIndex])
    ensures Rated(inv.weapons) ==> Rated(r.weapons)
  {
    var nav := Navigate(inv, pressed);
    if R in pressed then
      RatedAfterSet(nav, Reload(CurrentWeapon(nav)));
      SetCurrentWeapon(nav, Reload(CurrentWeapon(nav)))
    else nav
  }

  /** The last number key pressed wins the slot when Q and E are not pressed;
      Q and E together cancel out. */
  lemma {:induction false} SelectionKeys(inv: WeaponInventory, pressed: set<Key>, k: nat)
    requires inv.Valid() && |inv.weapons| == 5 && k < 5
    requires Q !in pressed && E !in pressed && R !in pressed
    requires [Num1, Num2, Num3, Num4, Num5][k] in pressed
    requires forall j :: k < j < 5 ==> [Num1, Num2, Num3, Num4, Num5][j] !in pressed
    ensures SelectWeapon(inv, pressed) == inv.(currentIndex := k)
  {
    var keys := [Num1, Num2, Num3, Num4, Num5];
    if k < 4 { assert keys[4] !in pressed; }
    if k < 3 { assert keys[3] !in pressed; }
    if k < 2 { assert keys[2] !in pressed; }
    if k < 1 { assert keys[1] !in pressed; }
  }

  lemma {:induction false} PreviousThenNextCancel(inv: WeaponInventory, pressed: set<Key>)
    requires inv.Valid()
    requires Q in pressed && E in pressed && R !in pressed
    requires Num1 !in pressed && Num2 !in pressed && Num3 !in pressed && Num4 !in pressed && Num5 !in pressed
    ensures SelectWeapon(inv, pressed) == inv
  {
    NextPreviousInverse(inv);
  }

  /** A base direction turned by the angle whose cosine and sine are `cs`. */
  function Rotate(v: Vec2, cs: Vec2): Vec2
  {
    Vec2(v.x * cs.x - v.y * cs.y, v.x * cs.y + v.y * cs.x)
  }

  /** The volley of lines 264-284: shot `k` flies along the base direction
      turned by the `k`-th random spread angle (given as its cosine and sine)
      and starts 25 units out along its own direction. */
  function Volley(pos: Vec2, base: Vec2, w: Weapon, spread: (EntityId, nat) -> Vec2, id: EntityId, n: nat): (v: seq<SpawnData>)
    ensures |v| == n
    ensures forall k :: 0 <= k < n ==>
              v[k].weapon == w && v[k].direction == Rotate(base, spread(id, k)) &&
              v[k].position == pos.Add(v[k].direction.Scale(25.0))
  {
    seq(n, k requires 0 <= k < n => var d := Rotate(base, spread(id, k)); SpawnData(pos.Add(d.Scale(25.0)), d, w))
  }

  /** The volley loop itself. */
  method FireVolley(pos: Vec2, base: Vec2, w: Weapon, spread: (EntityId, nat) -> Vec2, id: EntityId) returns (shots: seq<SpawnData>)
    ensures shots == Volley(pos, base, w, spread, id, w.projectileCount)
  {
    shots := [];
    var k := 0;
    while k < w.projectileCount
      invariant 0 <= k <= w.projectileCount
      invariant shots == Volley(pos, base, w, spread, id, k)
    {
      var direction := Rotate(base, spread(id, k));
      shots := shots + [SpawnData(pos.Add(direction.Scale(25.0)), direction, w)];
      k := k + 1;
    }
  }

  /** One frame of `player_shooting_system` for one player at `pos`, aiming at
      the world point `aim` under the cursor: the timer ticks, the keys select
      a weapon, and with the left button held and the timer run out one round
      is spent; a volley leaves when the aim direction is not zero, and only
      then is the timer reset. `length` is the Euclidean length; `spread`
      supplies the random spread angles. */
  function ShootStep(c: PlayerController, pos: Vec2, pressed: set<Key>, fire: bool, aim: Vec2,
                     length: Vec2 -> real, spread: (EntityId, nat) -> Vec2, id: EntityId, dt: real): (r: (PlayerController, seq<SpawnData>))
    requires c.Valid()
    ensures r.0.Valid()
  {
    var c1 := UpdateTimer(c, dt);
    var c2 := c1.(weaponInventory := SelectWeapon(c1.weaponInventory, pressed));
    if !(fire && CanShoot(c2)) then (c2, [])
    else
      var (w, ok) := ConsumeAmmo(CurrentWeapon(c2.weaponInventory));
      RatedAfterSet(c2.weaponInventory, w);
      var c3 := c2.(weaponInventory := SetCurrentWeapon(c2.weaponInventory, w));
      if !ok then (c3, [])
      else
        var base := NormalizeOrZero(aim.Sub(pos), length(aim.Sub(pos)));
        if base == Zero then (c3, [])
        else (ResetShootTimer(c3), Volley(pos, base, w, spread, id, w.projectileCount))
  }

  /** What a frame of shooting promises: shots only leave with the button held
      and the timer run out, a volley is `projectile_count` shots of the
      selected weapon and costs a single round, and afterwards the timer holds
      the weapon's cooldown, so no shot leaves in the next frame when `dt` is
      shorter than the cooldown. An empty magazine fires nothing. */
  lemma {:induction false} ShootingRules(c: PlayerController, pos: Vec2, pressed: set<Key>, fire: bool, aim: Vec2,
                                         length: Vec2 -> real, spread: (EntityId, nat) -> Vec2, id: EntityId, dt: real)
    requires c.Valid()
    ensures var (c', shots) := ShootStep(c, pos, pressed, fire, aim, length, spread, id, dt);
            var sel := SelectWeapon(UpdateTimer(c, dt).weaponInventory, pressed);
            var w := CurrentWeapon(sel);
            (shots != [] ==> fire && CanShoot(UpdateTimer(c, dt)) && w.ammo != Some(0) &&
                             |shots| == w.projectileCount &&
                             CurrentWeapon(c'.weaponInventory) == ConsumeAmmo(w).0 &&
                             (forall k :: 0 <= k < |shots| ==> shots[k].weapon == ConsumeAmmo(w).0) &&
                             c'.shootTimer == Cooldown(w) && !CanShoot(c')) &&
            (w.ammo == Some(0) ==> shots == [] && CurrentWeapon(c'.weaponInventory) == w) &&
            (!fire ==> shots == [] && c' == UpdateTimer(c, dt).(weaponInventory := sel))
  {
    var c1 := UpdateTimer(c, dt);
    var c2 := c1.(weaponInventory := SelectWeapon(c1.weaponInventory, pressed));
    var w := CurrentWeapon(c2.weaponInventory);
    if fire && CanShoot(c2) {
      var (w', ok) := ConsumeAmmo(w);
      var c3 := c2.(weaponInventory := SetCurrentWeapon(c2.weaponInventory, w'));
      assert CurrentWeapon(c3.weaponInventory) == w';
      assert w'.fireRate == w.fireRate;
      assert w'.projectileCount == w.projectileCount;
    }
  }

  // ---------------------------------------------------------------- systems

  /** The movement query: `(&mut Player, &mut Transform, &mut RigidBody,
      &mut PlayerController)`. */
  predicate Moves(e: Entity)
  {
    e.player.Some? && e.transform.Some? && e.body.Some? && e.playerController.Some?
  }

  /** The bodies the movement system integrates have a mass (the force is
      divided by it). */
  predicate Movable(e: Entity)
  {
    Moves(e) ==> e.body.value.mass != 0.0
  }

  function RigOf(e: Entity): Rig
    requires Moves(e)
  {
    Rig(e.player.value, e.transform.value, e.body.value, e.playerController.value)
  }

  function WithRig(e: Entity, s: Rig): (r: Entity)
    ensures Moves(r) && RigOf(r) == s
    ensures r.mech == e.mech && r.enemy == e.enemy && r.projectile == e.projectile
  {
    e.(player := Some(s.player), transform := Some(s.transform), body := Some(s.body),
       playerController := Some(s.controller))
  }

  /** An entity after the movement system: a player moved by one step,
      anything else untouched. */
  ghost function Moved(level: Level, down: set<Key>, pressed: set<Key>, dt: real, e: Entity): (r: Entity)
    requires level.Valid() && Movable(e)
    ensures r.mech == e.mech
  {
    if Moves(e) then WithRig(e, MoveStep(level, down, pressed, dt, RigOf(e))) else e
  }

  /** `player_movement_system`: every player entity takes one movement step;
      no entity appears or disappears. */
  method PlayerMovementSystem(world: World, input: InputState, level: Level, dt: real)
    requires world.Valid() && level.Valid()
    requires forall id :: id in world.entities ==> Movable(world.entities[id])
    modifies world
    ensures world.Valid() && world.order == old(world.order) && world.nextId == old(world.nextId)
    ensures world.entities.Keys == old(world.entities).Keys
    ensures forall id :: id in old(world.entities) ==>
              world.entities[id] == Moved(level, input.keysDown, input.keysPressed, dt, old(world.entities)[id])
  {
    var ents0, order := world.entities, world.order;
    var down, pressed := input.keysDown, input.keysPressed;
    ghost var next := (e: Entity, id: EntityId) requires Movable(e) => Moved(level, down, pressed, dt, e);
    var ents := ents0;
    var i := 0;
    while i < |order|
      invariant 0 <= i <= |order| && unchanged(world)
      invariant ents == Applied(ents0, order[..i], next)
    {
      var id := order[i];
      AppliedNext(ents0, order, i, next);
      var e := MoveEntity(level, down, pressed, dt, ents[id]);
      ents := ents[id := e];
      i := i + 1;
    }
    assert order[..i] == order;
    AppliedEvery(ents0, order, next);
    world.Store(ents);
  }

  /** One entity's turn in the movement query. */
  method MoveEntity(level: Level, down: set<Key>, pressed: set<Key>, dt: real, e: Entity) returns (r: Entity)
    requires level.Valid() && Movable(e)
    ensures r == Moved(level, down, pressed, dt, e)
  {
    r := e;
    if Moves(e) {
      var s := MovePlayer(level, down, pressed, dt, RigOf(e));
      r := WithRig(e, s);
    }
  }

  /** The shooting query: `(&Transform, &mut PlayerController)` with a
      `Player`. */
  predicate Shoots(e: Entity)
  {
    e.player.Some? && e.transform.Some? && e.playerController.Some?
  }

  /** The controllers the shooting system reads are valid (the selected
      weapon exists and has a cooldown). */
  predicate Armed(e: Entity)
  {
    Shoots(e) ==> e.playerController.value.Valid()
  }

  /** One entity's shooting step; `aim` is the cursor in world coordinates. */
  function ShootEntity(e: Entity, id: EntityId, pressed: set<Key>, fire: bool, aim: Vec2,
                       length: Vec2 -> real, spread: (EntityId, nat) -> Vec2, dt: real): (r: (Entity, seq<SpawnData>))
    requires Armed(e)
    ensures !Shoots(e) ==> r == (e, [])
    ensures Armed(r.0) && r.0.mech == e.mech && r.0.transform == e.transform
  {
    if !Shoots(e) then (e, [])
    else
      var (c, shots) := ShootStep(e.playerController.value, e.transform.value.position, pressed, fire, aim,
                                  length, spread, id, dt);
      (e.(playerController := Some(c)), shots)
  }

  /** The projectiles the shooting system returns: every shooter's volley,
      in query order. */
  function Volleys(ids: seq<EntityId>, ents: map<EntityId, Entity>, pressed: set<Key>, fire: bool, aim: Vec2,
                   length: Vec2 -> real, spread: (EntityId, nat) -> Vec2, dt: real): seq<SpawnData>
    requires forall id :: id in ents ==> Armed(ents[id])
  {
    if ids == [] then []
    else
      var id := ids[|ids| - 1];
      Volleys(ids[..|ids| - 1], ents, pressed, fire, aim, length, spread, dt) +
      (if id in ents then ShootEntity(ents[id], id, pressed, fire, aim, length, spread, dt).1 else [])
  }

  /** `player_shooting_system`: every shooter takes one shooting step; the
      spawn requests come back in query order. The cursor is converted with
      the camera's `screen_to_world`; `spread(id, k)` is the cosine and sine
      of the random spread angle of shooter `id`'s `k`-th shot. */
  method PlayerShootingSystem(world: World, input: InputState, camera: Cameras.Camera, length: Vec2 -> real,
                              spread: (EntityId, nat) -> Vec2, dt: real) returns (spawned: seq<SpawnData>)
    requires world.Valid() && camera.zoom != 0.0
    requires forall id :: id in world.entities ==> Armed(world.entities[id])
    modifies world
    ensures world.Valid() && world.order == old(world.order) && world.nextId == old(world.nextId)
    ensures world.entities.Keys == old(world.entities).Keys
    ensures var aim := camera.ScreenToWorld(input.mousePosition);
            var fire := ButtonLeft in input.buttonsDown;
            (forall id :: id in old(world.entities) ==>
               world.entities[id] == ShootEntity(old(world.entities)[id], id, input.keysPressed, fire, aim,
                                                 length, spread, dt).0) &&
            spawned == Volleys(world.order, old(world.entities), input.keysPressed, fire, aim, length, spread, dt)
  {
    var aim := camera.ScreenToWorld(input.mousePosition);
    var fire := input.IsMouseButtonDown(ButtonLeft);
    var pressed := input.keysPressed;
    var shoot := (e: Entity, id: EntityId) requires Armed(e) => ShootEntity(e, id, pressed, fire, aim, length, spread, dt);
    var ents;
    ents, spawned := StepAll(world.entities, world.order, shoot);
    RequestsAreVolleys(world.order, world.entities, shoot, pressed, fire, aim, length, spread, dt);
    world.Store(ents);
  }

  /** With the shooting step as the step, the requests collected are exactly
      the volleys. */
  lemma {:induction false} RequestsAreVolleys(ids: seq<EntityId>, ents: map<EntityId, Entity>,
                                              shoot: (Entity, EntityId) --> (Entity, seq<SpawnData>),
                                              pressed: set<Key>, fire: bool, aim: Vec2, length: Vec2 -> real,
                                              spread: (EntityId, nat) -> Vec2, dt: real)
    requires forall id :: id in ents ==> Armed(ents[id])
    requires forall e, id :: Armed(e) ==> shoot.requires(e, id) &&
                                          shoot(e, id) == ShootEntity(e, id, pressed, fire, aim, length, spread, dt)
    ensures Requests(ids, ents, shoot) == Volleys(ids, ents, pressed, fire, aim, length, spread, dt)
  {
    if ids != [] {
      RequestsAreVolleys(ids[..|ids| - 1], ents, shoot, pressed, fire, aim, length, spread, dt);
    }
  }
}
