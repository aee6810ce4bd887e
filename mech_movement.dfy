/** Driving a mech (systems/mech/movement.rs): walking and boosting, the
    jump and the heavier gravity, the ground stomp, and the clamps that keep
    the mech inside the level. The step is written as the sequence of small
    pure stages below; `MoveMech` performs it in place. */
module MechMovement {
  import opened Core
  import Physics
  import opened Levels
  import opened Mechs
  import opened Input
  import opened Ecs

  /** The components the movement query borrows. */
  datatype Suit = Suit(mech: Mech, controller: MechController, transform: Transform, body: Physics.RigidBody)

  const RegenRate: real := 30.0
  const BoostCost: real := 20.0
  const MechGravity: real := 2000.0
  const StompSpeed: real := 1500.0

  /** The horizontal direction: A/Left pull left, D/Right pull right, and
      right wins when both are held (it is tested last). */
  function MoveDir(down: set<Key>): (d: real)
    ensures d == -1.0 || d == 0.0 || d == 1.0
    ensures d > 0.0 <==> D in down || Right in down
    ensures d < 0.0 <==> (A in down || Left in down) && !(D in down || Right in down)
  {
    if D in down || Right in down then 1.0 else if A in down || Left in down then -1.0 else 0.0
  }

  /** Lines 23-28: the cooldowns run down, and energy comes back at 30 per
      second unless the mech was boosting on the previous tick. */
  function Recharge(s: Suit, dt: real): (r: Suit)
    ensures r.controller == UpdateController(s.controller, dt)
    ensures r.mech == if s.controller.isBoosting then s.mech else RegenerateEnergy(s.mech, RegenRate, dt)
    ensures r.transform == s.transform && r.body == s.body
  {
    var c := UpdateController(s.controller, dt);
    s.(controller := c, mech := if c.isBoosting then s.mech else RegenerateEnergy(s.mech, RegenRate, dt))
  }

  predicate ShiftHeld(down: set<Key>)
  {
    LShift in down || RShift in down
  }

  /** Lines 40-51: boosting needs shift, enough energy and a direction; it
      switches to the boost speed and pays 20 energy per second (a refused
      payment does not stop the boost). */
  function Boost(s: Suit, down: set<Key>, dt: real): (r: Suit)
  {
    var dir := MoveDir(down);
    if ShiftHeld(down) && CanBoost(s.mech) && dir != 0.0 then
      s.(controller := s.controller.(isBoosting := true),
         mech := UseEnergy(s.mech, BoostCost * dt).0,
         body := s.body.(velocity := s.body.velocity.(x := dir * s.mech.boostSpeed)))
    else
      s.(controller := s.controller.(isBoosting := false),
         body := s.body.(velocity := s.body.velocity.(x := dir * s.mech.normalSpeed)))
  }

  /** The point 5 units below the mech's feet. */
  function FootProbe(t: Transform, m: Mech): Vec2
  {
    Vec2(t.position.x, t.position.y + m.size.y / 2.0 + 5.0)
  }

  /** Lines 54-66: on the ground when the tile under the foot probe exists
      and is not empty (platforms count, whatever their solidity). */
  predicate OnGround(level: Level, t: Transform, m: Mech)
    requires level.Valid()
  {
    var tile := GetTileAtPosition(level, FootProbe(t, m));
    tile.Some? && tile.value.tileType != Empty
  }

  predicate JumpKey(pressed: set<Key>)
  {
    W in pressed || Up in pressed || Space in pressed
  }

  predicate StompKeys(down: set<Key>, pressed: set<Key>)
  {
    (S in down || Down in down) && Space in pressed
  }

  /** Lines 68-89: a jump from the ground, gravity in the air (and no
      downward speed on the ground), then the stomp in the air. */
  function Leap(s: Suit, onGround: bool, down: set<Key>, pressed: set<Key>, dt: real): (r: Suit)
  {
    var vy0 := s.body.velocity.y;
    var vy1 := if onGround && JumpKey(pressed) then -s.mech.jumpPower else vy0;
    var vy2 := if !onGround then vy1 + MechGravity * dt else if vy1 > 0.0 then 0.0 else vy1;
    if !onGround && CanStomp(s.controller) && StompKeys(down, pressed) then
      s.(body := s.body.(velocity := s.body.velocity.(y := StompSpeed)), controller := DoStomp(s.controller))
    else
      s.(body := s.body.(velocity := s.body.velocity.(y := vy2)))
  }

  /** The lowest the mech's centre may be: three tile rows above the bottom
      of the grid, minus half the mech's height. */
  function GroundY(level: Level, m: Mech): real
    requires level.height >= 3
  {
    (level.height - 3) as real * TileSize - m.size.y / 2.0
  }

  /** Lines 91-103: the move by `velocity * dt`, then the x clamps and the
      floor. */
  function Advance(level: Level, s: Suit, dt: real): (r: Suit)
    requires level.height >= 3
  {
    var p := s.transform.position.Add(s.body.velocity.Scale(dt));
    var x := Min(Max(p.x, s.mech.size.x / 2.0), level.width as real * TileSize - s.mech.size.x / 2.0);
    if p.y > GroundY(level, s.mech) then
      s.(transform := s.transform.(position := Vec2(x, GroundY(level, s.mech))),
         body := s.body.(velocity := s.body.velocity.(y := 0.0)))
    else
      s.(transform := s.transform.(position := Vec2(x, p.y)))
  }

  /** One tick of `mech_movement_system` for a piloted mech. */
  function MechStep(level: Level, down: set<Key>, pressed: set<Key>, dt: real, s: Suit): (r: Suit)
    requires level.Valid() && level.height >= 3
    ensures r.mech.isOccupied == s.mech.isOccupied && r.mech.pilotEntity == s.mech.pilotEntity
  {
    var s1 := Boost(Recharge(s, dt), down, dt);
    Advance(level, Leap(s1, OnGround(level, s1.transform, s1.mech), down, pressed, dt), dt)
  }

  /** Lines 23-28 in place. */
  method ChargeMech(s: Suit, dt: real) returns (r: Suit)
    ensures r == Recharge(s, dt)
  {
    var mech, controller := s.mech, s.controller;
    controller := UpdateController(controller, dt);
    if !controller.isBoosting {
      mech := RegenerateEnergy(mech, RegenRate, dt);
    }
    r := s.(mech := mech, controller := controller);
  }

  /** Lines 30-51 in place. */
  method SteerMech(s: Suit, down: set<Key>, dt: real) returns (r: Suit)
    ensures r == Boost(s, down, dt)
  {
    var mech, controller, body := s.mech, s.controller, s.body;
    var moveDir := 0.0;
    if A in down || Left in down {
      moveDir := -1.0;
    }
    if D in down || Right in down {
      moveDir := 1.0;
    }
    controller := controller.(isBoosting := false);
    var speed := mech.normalSpeed;
    if LShift in down || RShift in down {
      if CanBoost(mech) && moveDir != 0.0 {
        controller := controller.(isBoosting := true);
        speed := mech.boostSpeed;
        var (paid, _) := UseEnergy(mech, BoostCost * dt);
        mech := paid;
      }
    }
    body := body.(velocity := body.velocity.(x := moveDir * speed));
    r := s.(mech := mech, controller := controller, body := body);
  }

  /** Lines 53-89 in place. */
  method LeapMech(level: Level, s: Suit, down: set<Key>, pressed: set<Key>, dt: real) returns (r: Suit)
    requires level.Valid()
    ensures r == Leap(s, OnGround(level, s.transform, s.mech), down, pressed, dt)
  {
    var controller, body := s.controller, s.body;
    var probe := Vec2(s.transform.position.x, s.transform.position.y + s.mech.size.y / 2.0 + 5.0);
    var tile := GetTile(level, CellIndex(probe.x), CellIndex(probe.y));
    var onGround := if tile.Some? then tile.value.tileType != Empty else false;
    if onGround && (W in pressed || Up in pressed || Space in pressed) {
      body := body.(velocity := body.velocity.(y := -s.mech.jumpPower));
    }
    if !onGround {
      body := body.(velocity := body.velocity.(y := body.velocity.y + MechGravity * dt));
    } else if body.velocity.y > 0.0 {
      body := body.(velocity := body.velocity.(y := 0.0));
    }
    if !onGround && CanStomp(controller) {
      if (S in down || Down in down) && Space in pressed {
        body := body.(velocity := body.velocity.(y := StompSpeed));
        controller := DoStomp(controller);
      }
    }
    r := s.(controller := controller, body := body);
  }

  /** Lines 91-103 in place. */
  method AdvanceMech(level: Level, s: Suit, dt: real) returns (r: Suit)
    requires level.height >= 3
    ensures r == Advance(level, s, dt)
  {
    var transform, body := s.transform, s.body;
    transform := transform.(position := transform.position.Add(body.velocity.Scale(dt)));
    transform := transform.(position := transform.position.(x := Max(transform.position.x, s.mech.size.x / 2.0)));
    transform := transform.(position := transform.position.(x := Min(transform.position.x,
                                                                    level.width as real * TileSize - s.mech.size.x / 2.0)));
    var groundY := (level.height - 3) as real * TileSize - s.mech.size.y / 2.0;
    if transform.position.y > groundY {
      transform := transform.(position := transform.position.(y := groundY));
      body := body.(velocity := body.velocity.(y := 0.0));
    }
    r := s.(transform := transform, body := body);
  }

  /** The body of the system's loop for one piloted mech, stage by stage in
      the order of the source. */
  method MoveMech(level: Level, down: set<Key>, pressed: set<Key>, dt: real, s: Suit) returns (r: Suit)
    requires level.Valid() && level.height >= 3
    ensures r == MechStep(level, down, pressed, dt, s)
  {
    r := ChargeMech(s, dt);
    r := SteerMech(r, down, dt);
    r := LeapMech(level, r, down, pressed, dt);
    r := AdvanceMech(level, r, dt);
  }
  // ---------------------------------------------------------- properties

  /** The horizontal rules: the velocity is the direction times the boost or
      the normal speed, and the mech boosts exactly when shift is held, it
      can boost after recharging, and a direction key is held. */
  lemma {:induction false} SteeringRules(level: Level, down: set<Key>, pressed: set<Key>, dt: real, s: Suit)
    requires level.Valid() && level.height >= 3
    ensures var r := MechStep(level, down, pressed, dt, s);
            var charged := Recharge(s, dt).mech;
            (r.controller.isBoosting <==> ShiftHeld(down) && CanBoost(charged) && MoveDir(down) != 0.0) &&
            r.body.velocity.x == MoveDir(down) * (if r.controller.isBoosting then s.mech.boostSpeed else s.mech.normalSpeed) &&
            (MoveDir(down) == 0.0 ==> r.body.velocity.x == 0.0)
  {
  }

  /** Energy: it comes back only when the mech was not boosting on the
      previous tick, a boost pays `20 * dt` when there is enough, and from a
      charge within `[0, max]` and a non-negative `dt` the energy stays in
      that range. */
  lemma {:induction false} EnergyRules(level: Level, down: set<Key>, pressed: set<Key>, dt: real, s: Suit)
    requires level.Valid() && level.height >= 3
    ensures var r := MechStep(level, down, pressed, dt, s);
            var charged := Recharge(s, dt).mech;
            (s.controller.isBoosting ==> charged.energy == s.mech.energy) &&
            (!s.controller.isBoosting ==> charged.energy == Min(s.mech.energy + RegenRate * dt, s.mech.maxEnergy)) &&
            (!r.controller.isBoosting ==> r.mech == charged) &&
            (r.controller.isBoosting && charged.energy >= BoostCost * dt ==> r.mech.energy == charged.energy - BoostCost * dt)
    ensures var r := MechStep(level, down, pressed, dt, s);
            0.0 <= s.mech.energy <= s.mech.maxEnergy && 0.0 <= dt ==> 0.0 <= r.mech.energy <= s.mech.maxEnergy
  {
    var r := MechStep(level, down, pressed, dt, s);
    if 0.0 <= s.mech.energy <= s.mech.maxEnergy && 0.0 <= dt {
      EnergyStaysInRange(s.mech, 0.0, RegenRate, dt);
      var charged := Recharge(s, dt).mech;
      EnergyStaysInRange(charged, BoostCost * dt, 0.0, dt);
    }
  }

  /** The vertical rules before the floor clamp: a stomp (airborne, stomp
      ready, down held and space pressed) slams down at 1500 and starts the
      cooldown; otherwise a jump from the ground sets the jump speed, the air
      adds 2000 per second, and the ground cancels any downward speed. */
  lemma {:induction false} VerticalRules(level: Level, down: set<Key>, pressed: set<Key>, dt: real, s: Suit)
    requires level.Valid() && level.height >= 3
    ensures var s1 := Boost(Recharge(s, dt), down, dt);
            var ground := OnGround(level, s.transform, s.mech);
            var l := Leap(s1, ground, down, pressed, dt);
            var stomp := !ground && CanStomp(UpdateController(s.controller, dt)) && StompKeys(down, pressed);
            (stomp ==> l.body.velocity.y == StompSpeed && l.controller.stompCooldown == 2.0) &&
            (!stomp ==> l.controller == s1.controller) &&
            (!ground && !stomp ==> l.body.velocity.y == s.body.velocity.y + MechGravity * dt) &&
            (ground && JumpKey(pressed) && s.mech.jumpPower >= 0.0 ==> l.body.velocity.y == -s.mech.jumpPower) &&
            (ground ==> l.body.velocity.y <= 0.0) &&
            MechStep(level, down, pressed, dt, s) == Advance(level, l, dt)
  {
    var s1 := Boost(Recharge(s, dt), down, dt);
    assert s1.transform == s.transform;
    assert s1.mech.size == s.mech.size && s1.mech.jumpPower == s.mech.jumpPower;
  }

  /** The clamps: x never exceeds the right bound and, when the mech fits in
      the level, never falls below the left one; y never falls below the
      floor, and only a mech pushed onto the floor loses its vertical speed. */
  lemma {:induction false} BoundsRules(level: Level, down: set<Key>, pressed: set<Key>, dt: real, s: Suit)
    requires level.Valid() && level.height >= 3
    ensures var r := MechStep(level, down, pressed, dt, s);
            var half := s.mech.size.x / 2.0;
            r.transform.position.x <= level.width as real * TileSize - half &&
            (s.mech.size.x <= level.width as real * TileSize ==> half <= r.transform.position.x) &&
            var s1 := Boost(Recharge(s, dt), down, dt);
            var l := Leap(s1, OnGround(level, s1.transform, s1.mech), down, pressed, dt);
            r.transform.position.y <= GroundY(level, s.mech) &&
            (r.body.velocity != l.body.velocity ==>
               r.body.velocity.y == 0.0 && r.transform.position.y == GroundY(level, s.mech)) &&
            (r.transform.position.y < GroundY(level, s.mech) ==> r.body.velocity == l.body.velocity)
  {
  }

  // ---------------------------------------------------------------- system

  /** The movement query `(&mut Mech, &mut MechController, &mut Transform,
      &mut RigidBody)`. */
  predicate Drives(e: Entity)
  {
    e.mech.Some? && e.mechController.Some? && e.transform.Some? && e.body.Some?
  }

  function SuitOf(e: Entity): Suit
    requires Drives(e)
  {
    Suit(e.mech.value, e.mechController.value, e.transform.value, e.body.value)
  }

  function WithSuit(e: Entity, s: Suit): (r: Entity)
    ensures Drives(r) && SuitOf(r) == s
  {
    e.(mech := Some(s.mech), mechController := Some(s.controller), transform := Some(s.transform), body := Some(s.body))
  }

  /** An entity after the system: a piloted mech takes a step, an empty mech
      and every other entity are untouched. */
  function Driven(level: Level, down: set<Key>, pressed: set<Key>, dt: real, e: Entity): (r: Entity)
    requires level.Valid() && level.height >= 3
    ensures r.mech.Some? <==> e.mech.Some?
    ensures r.mech.Some? ==> r.mech.value.isOccupied == e.mech.value.isOccupied &&
                             r.mech.value.pilotEntity == e.mech.value.pilotEntity
    ensures e.mech.Some? && !e.mech.value.isOccupied ==> r == e
  {
    if Drives(e) && e.mech.value.isOccupied then WithSuit(e, MechStep(level, down, pressed, dt, SuitOf(e))) else e
  }

  /** One entity's turn in the movement query. */
  method DriveEntity(level: Level, down: set<Key>, pressed: set<Key>, dt: real, e: Entity) returns (r: Entity)
    requires level.Valid() && level.height >= 3
    ensures r == Driven(level, down, pressed, dt, e)
  {
    r := e;
    if Drives(e) && e.mech.value.isOccupied {
      var s := MoveMech(level, down, pressed, dt, SuitOf(e));
      r := WithSuit(e, s);
    }
  }

  /** `mech_movement_system`: every piloted mech takes one step; unmanned
      mechs and all other entities are left as they were. The floor needs a
      level of at least three rows (`height - 3` on `usize`). */
  method MechMovementSystem(world: World, input: InputState, level: Level, dt: real)
    requires world.Valid() && level.Valid() && level.height >= 3
    modifies world
    ensures world.Valid() && world.order == old(world.order) && world.nextId == old(world.nextId)
    ensures world.entities.Keys == old(world.entities).Keys
    ensures forall id :: id in old(world.entities) ==>
              world.entities[id] == Driven(level, input.keysDown, input.keysPressed, dt, old(world.entities)[id])
  {
    var ents0, order := world.entities, world.order;
    var down, pressed := input.keysDown, input.keysPressed;
    ghost var next := (e: Entity, id: EntityId) => Driven(level, down, pressed, dt, e);
    var ents := ents0;
    var i := 0;
    while i < |order|
      invariant 0 <= i <= |order| && unchanged(world)
      invariant ents == Applied(ents0, order[..i], next)
    {
      var id := order[i];
      AppliedNext(ents0, order, i, next);
      var e := DriveEntity(level, down, pressed, dt, ents[id]);
      ents := ents[id := e];
      i := i + 1;
    }
    assert order[..i] == order;
    AppliedEvery(ents0, order, next);
    world.Replace(ents);
  }
}
