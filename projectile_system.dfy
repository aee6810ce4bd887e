/** `projectile_system` (systems/projectile/mod.rs, lines 74-250): snapshot
    the first player and every enemy, move every projectile one tick (ageing,
    gravity, wall hits, faction hits with piercing), then apply the recorded
    damage, and finally remove every enemy left without health. */
module ProjectileSystem {
  import opened Core
  import Physics
  import opened Levels
  import opened Projectiles
  import opened Enemies
  import opened Ecs

  /** Downward force per unit of `gravity_scale`. */
  const ProjectileGravity: real := 500.0

  /** An enemy as the snapshot at lines 95-101 records it. */
  datatype Target = Target(id: EntityId, position: Vec2, size: Vec2)

  /** `(projectile, damage)` for a hit on the player. */
  datatype PlayerHit = PlayerHit(projectile: EntityId, damage: real)

  /** `(projectile, enemy, damage)` for a hit on an enemy. */
  datatype EnemyHit = EnemyHit(projectile: EntityId, enemy: EntityId, damage: real)

  /** The snapshot queries `(&Player, &Transform)` and `(&Enemy, &Transform)`,
      and the projectile query `(&mut Projectile, &mut Transform, &mut RigidBody)`. */
  predicate PlayerSeen(e: Entity)
  {
    e.player.Some? && e.transform.Some?
  }

  predicate EnemySeen(e: Entity)
  {
    e.enemy.Some? && e.transform.Some?
  }

  predicate Flies(e: Entity)
  {
    e.projectile.Some? && e.transform.Some? && e.body.Some?
  }

  /** The projectiles the system moves have a mass (gravity divides by it). */
  predicate Ballistic(e: Entity)
  {
    Flies(e) ==> e.body.value.mass != 0.0
  }

  // ------------------------------------------------------------ snapshots

  /** Lines 85-92: the position and size of the first player, if any. */
  function PlayerSnapshot(ids: seq<EntityId>, ents: map<EntityId, Entity>): (r: Option<(Vec2, Vec2)>)
    ensures r.None? <==> forall j :: 0 <= j < |ids| ==> !(ids[j] in ents && PlayerSeen(ents[ids[j]]))
  {
    match FirstWhere(ids, ents, PlayerSeen)
    case None => None
    case Some(k) => Some((ents[ids[k]].transform.value.position, ents[ids[k]].player.value.size))
  }

  /** Lines 95-101: every enemy with a transform, in query order. */
  function Targets(ids: seq<EntityId>, ents: map<EntityId, Entity>): (r: seq<Target>)
    ensures |r| == CountWhere(ids, ents, EnemySeen)
    ensures forall k :: 0 <= k < |r| ==>
              r[k].id in ids && r[k].id in ents && EnemySeen(ents[r[k].id]) &&
              r[k].position == ents[r[k].id].transform.value.position &&
              r[k].size == ents[r[k].id].enemy.value.size
  {
    if ids == [] then []
    else
      Targets(ids[..|ids| - 1], ents) + TargetOf(ids[|ids| - 1], ents)
  }

  /** The snapshot of one entity: its target if it is a visible enemy. */
  function TargetOf(id: EntityId, ents: map<EntityId, Entity>): seq<Target>
  {
    if id in ents && EnemySeen(ents[id])
    then [Target(id, ents[id].transform.value.position, ents[id].enemy.value.size)] else []
  }

  lemma {:induction false} TargetsExtend(ids: seq<EntityId>, i: nat, ents: map<EntityId, Entity>)
    requires i < |ids|
    ensures Targets(ids[..i + 1], ents) == Targets(ids[..i], ents) + TargetOf(ids[i], ents)
  {
    assert ids[..i + 1][..i] == ids[..i];
  }

  /** The snapshot of the enemies, as the loop at lines 95-101 takes it. */
  method SnapshotEnemies(world: World) returns (targets: seq<Target>)
    requires world.Valid()
    ensures targets == Targets(world.order, world.entities)
  {
    var ents, order := world.entities, world.order;
    targets := [];
    var i := 0;
    while i < |order|
      invariant 0 <= i <= |order|
      invariant targets == Targets(order[..i], ents)
    {
      var id := order[i];
      TargetsExtend(order, i, ents);
      targets := targets + TargetOf(id, ents);
      i := i + 1;
    }
    assert order[..i] == order;
  }

  // -------------------------------------------------------- enemy scan

  /** The target's box overlaps the projectile's box. */
  predicate Struck(t: Target, rect: Rect)
  {
    Intersects(CenteredRect(t.position, t.size), rect)
  }

  /** The number of targets the box overlaps. */
  function StruckCount(targets: seq<Target>, rect: Rect): (n: nat)
    ensures n <= |targets|
  {
    if targets == [] then 0
    else (if Struck(targets[0], rect) then 1 else 0) + StruckCount(targets[1..], rect)
  }

  /** The ids of the targets the box overlaps. */
  function StruckIds(targets: seq<Target>, rect: Rect): set<EntityId>
  {
    set t | t in targets && Struck(t, rect) :: t.id
  }

  /** Lines 191-217: walk the enemies in snapshot order, recording a hit on
      every enemy the box overlaps; each hit spends one pierce, and a hit
      with no pierce left ends the walk. The second component is the pierce
      count left. */
  function Scan(targets: seq<Target>, rect: Rect, pierce: nat, proj: EntityId, damage: real): (r: (seq<EnemyHit>, nat))
    ensures r.1 <= pierce && |r.0| <= pierce + 1
    ensures |r.0| + r.1 == pierce || (|r.0| == pierce + 1 && r.1 == 0)
    ensures forall k :: 0 <= k < |r.0| ==> r.0[k].projectile == proj && r.0[k].damage == damage
    ensures forall k :: 0 <= k < |r.0| ==> r.0[k].enemy in StruckIds(targets, rect)
  {
    if targets == [] then ([], pierce)
    else if Struck(targets[0], rect) then
      if pierce > 0 then
        var rest := Scan(targets[1..], rect, pierce - 1, proj, damage);
        ([EnemyHit(proj, targets[0].id, damage)] + rest.0, rest.1)
      else ([EnemyHit(proj, targets[0].id, damage)], 0)
    else Scan(targets[1..], rect, pierce, proj, damage)
  }

  /** The walk hits every overlapped enemy while its pierce lasts, and
      `pierce_count + 1` of them once it runs out. */
  lemma {:induction false} ScanCount(targets: seq<Target>, rect: Rect, pierce: nat, proj: EntityId, damage: real)
    ensures var n := StruckCount(targets, rect);
            |Scan(targets, rect, pierce, proj, damage).0| == if n <= pierce then n else pierce + 1
    ensures StruckCount(targets, rect) <= pierce ==>
              Scan(targets, rect, pierce, proj, damage).1 == pierce - StruckCount(targets, rect)
  {
    if targets != [] {
      if Struck(targets[0], rect) {
        if pierce > 0 {
          ScanCount(targets[1..], rect, pierce - 1, proj, damage);
        }
      } else {
        ScanCount(targets[1..], rect, pierce, proj, damage);
      }
    }
  }

  /** The scan as the loop at lines 191-217 performs it. */
  method ScanTargets(targets: seq<Target>, rect: Rect, pierce: nat, proj: EntityId, damage: real)
    returns (hits: seq<EnemyHit>, left: nat)
    ensures (hits, left) == Scan(targets, rect, pierce, proj, damage)
  {
    hits, left := [], pierce;
    var i := 0;
    assert targets[i..] == targets;
    assert hits + Scan(targets[i..], rect, left, proj, damage).0 == Scan(targets, rect, pierce, proj, damage).0;
    while i < |targets|
      invariant 0 <= i <= |targets|
      invariant Scan(targets, rect, pierce, proj, damage) ==
                (hits + Scan(targets[i..], rect, left, proj, damage).0, Scan(targets[i..], rect, left, proj, damage).1)
    {
      assert targets[i..][1..] == targets[i + 1..];
      var hit := EnemyHit(proj, targets[i].id, damage);
      if Struck(targets[i], rect) {
        if left > 0 {
          var rest := Scan(targets[i + 1..], rect, left - 1, proj, damage);
          assert hits + ([hit] + rest.0) == (hits + [hit]) + rest.0;
          hits, left := hits + [hit], left - 1;
        } else {
          hits := hits + [hit];
          return;
        }
      }
      i := i + 1;
    }
    assert hits + [] == hits;
  }

  // ------------------------------------------------------- one projectile

  /** What one projectile's tick produces: its new components, whether it is
      listed as expired, and the hits it recorded. */
  datatype Flight = Flight(projectile: Projectile, transform: Transform, body: Physics.RigidBody,
                           expired: bool, playerHits: seq<PlayerHit>, enemyHits: seq<EnemyHit>)

  /** Lines 115-117: gravity scaled by the projectile's `gravity_scale`, then
      one integration step. */
  function Pushed(p: Projectile, b: Physics.RigidBody, dt: real): (r: Physics.RigidBody)
    requires b.mass != 0.0
    ensures r.mass == b.mass && r.drag == b.drag && r.acceleration == Zero
  {
    Physics.Integrate(Physics.ApplyForce(b, Vec2(0.0, ProjectileGravity * p.gravityScale)), dt)
  }

  /** Lines 129-137: the box at the position the projectile moves to. */
  function Probe(p: Projectile, t: Transform, b: Physics.RigidBody, dt: real): Rect
  {
    CenteredRect(t.position.Add(b.velocity.Scale(dt)), p.size)
  }

  /** Lines 139-218, once the wall test is known: a wall hit lists the
      projectile and leaves it where it was; otherwise it moves, an enemy
      shot tests the player snapshot only and a player shot scans the
      enemies only. */
  function Land(id: EntityId, p: Projectile, t: Transform, b: Physics.RigidBody, dt: real,
                player: Option<(Vec2, Vec2)>, targets: seq<Target>, blocked: bool): (f: Flight)
  {
    if blocked then Flight(p, t, b, true, [], [])
    else
      var rect := Probe(p, t, b, dt);
      var moved := t.(position := t.position.Add(b.velocity.Scale(dt)));
      match p.owner
      case EnemyOwner =>
        Flight(p, moved, b, false,
               if player.Some? && Intersects(CenteredRect(player.value.0, player.value.1), rect)
               then [PlayerHit(id, p.damage)] else [],
               [])
      case PlayerOwner =>
        var (hits, left) := Scan(targets, rect, p.pierceCount, id, p.damage);
        Flight(p.(pierceCount := left), moved, b, false, [], hits)
  }

  /** Lines 107-218 for the projectile `id`. */
  ghost function Fly(level: Level, id: EntityId, p: Projectile, t: Transform, b: Physics.RigidBody, dt: real,
                     player: Option<(Vec2, Vec2)>, targets: seq<Target>): Flight
    requires level.Valid() && b.mass != 0.0
  {
    var p1 := Age(p, dt);
    if IsExpired(p1) then Flight(p1, t, b, true, [], [])
    else
      var b1 := Pushed(p1, b, dt);
      Land(id, p1, t, b1, dt, player, targets, Collides(level, Probe(p1, t, b1, dt)))
  }

  /** The rules of one projectile's tick: an expired projectile is listed
      without moving or hitting anything; a wall hit is listed, keeps its
      position and hits nothing; otherwise it moves by its new velocity and
      is not listed; enemy shots only hit the player (at most once), player
      shots only hit enemies, at most `pierce_count + 1` of them, and the
      pierce count never grows. */
  lemma {:induction false} FlightRules(level: Level, id: EntityId, p: Projectile, t: Transform, b: Physics.RigidBody,
                                       dt: real, player: Option<(Vec2, Vec2)>, targets: seq<Target>)
    requires level.Valid() && b.mass != 0.0
    ensures var f := Fly(level, id, p, t, b, dt, player, targets);
            f.projectile.lifetime == p.lifetime + dt && f.projectile.pierceCount <= p.pierceCount &&
            f.projectile.damage == p.damage && f.projectile.owner == p.owner &&
            (IsExpired(Age(p, dt)) ==> f.expired && f.transform == t && f.body == b) &&
            (f.expired ==> f.transform == t && f.playerHits == [] && f.enemyHits == []) &&
            (!f.expired ==> f.transform.position == t.position.Add(f.body.velocity.Scale(dt))) &&
            (p.owner == EnemyOwner ==> f.enemyHits == [] && |f.playerHits| <= 1 && f.projectile == Age(p, dt)) &&
            (p.owner == PlayerOwner ==> f.playerHits == [] && |f.enemyHits| <= p.pierceCount + 1) &&
            (forall k :: 0 <= k < |f.playerHits| ==> f.playerHits[k] == PlayerHit(id, p.damage)) &&
            (forall k :: 0 <= k < |f.enemyHits| ==> f.enemyHits[k].projectile == id && f.enemyHits[k].damage == p.damage)
  {
  }

  /** One projectile's tick as the loop body performs it. */
  method FlyOne(level: Level, id: EntityId, p: Projectile, t: Transform, b: Physics.RigidBody, dt: real,
                player: Option<(Vec2, Vec2)>, targets: seq<Target>) returns (f: Flight)
    requires level.Valid() && b.mass != 0.0
    ensures f == Fly(level, id, p, t, b, dt, player, targets)
  {
    var p1 := Age(p, dt);
    if IsExpired(p1) {
      return Flight(p1, t, b, true, [], []);
    }
    var b1 := Pushed(p1, b, dt);
    var rect := Probe(p1, t, b1, dt);
    var blocked := CheckCollision(level, rect);
    if blocked {
      return Flight(p1, t, b1, true, [], []);
    }
    var moved := t.(position := t.position.Add(b1.velocity.Scale(dt)));
    if p1.owner == EnemyOwner {
      var hits := [];
      if player.Some? && Intersects(CenteredRect(player.value.0, player.value.1), rect) {
        hits := [PlayerHit(id, p1.damage)];
      }
      f := Flight(p1, moved, b1, false, hits, []);
    } else {
      var hits, left := ScanTargets(targets, rect, p1.pierceCount, id, p1.damage);
      f := Flight(p1.(pierceCount := left), moved, b1, false, [], hits);
    }
  }

  // ---------------------------------------------------- the projectile loop

  /** The tick of a projectile entity. */
  ghost function FlightOf(level: Level, dt: real, player: Option<(Vec2, Vec2)>, targets: seq<Target>,
                          id: EntityId, e: Entity): Flight
    requires level.Valid() && Flies(e) && Ballistic(e)
  {
    Fly(level, id, e.projectile.value, e.transform.value, e.body.value, dt, player, targets)
  }

  /** The entity with the components the tick wrote back. */
  function Apply(e: Entity, f: Flight): (r: Entity)
    ensures r.mech == e.mech && r.enemy == e.enemy && r.player == e.player
    ensures r.projectile == Some(f.projectile) && r.transform == Some(f.transform) && r.body == Some(f.body)
  {
    e.(projectile := Some(f.projectile), transform := Some(f.transform), body := Some(f.body))
  }

  /** The tally after the tick `f` of projectile `id`: listed when expired,
      its hits appended. */
  function Record(t: Tally, id: EntityId, f: Flight): (r: Tally)
    ensures r.playerHits == t.playerHits + f.playerHits && r.enemyHits == t.enemyHits + f.enemyHits
    ensures r.expired == if f.expired then t.expired + [id] else t.expired
  {
    Tally(if f.expired then t.expired + [id] else t.expired, t.playerHits + f.playerHits, t.enemyHits + f.enemyHits)
  }

  /** One entity after the projectile loop: a projectile takes its tick,
      every other entity is left alone. */
  ghost function Flown(level: Level, dt: real, player: Option<(Vec2, Vec2)>, targets: seq<Target>,
                       id: EntityId, e: Entity): (r: Entity)
    requires level.Valid() && Ballistic(e)
    ensures r.mech == e.mech && r.enemy == e.enemy && r.player == e.player
    ensures !Flies(e) ==> r == e
  {
    if Flies(e) then Apply(e, FlightOf(level, dt, player, targets, id, e)) else e
  }

  ghost function FlownAll(ents: map<EntityId, Entity>, level: Level, dt: real, player: Option<(Vec2, Vec2)>,
                          targets: seq<Target>): (r: map<EntityId, Entity>)
    requires level.Valid() && forall id :: id in ents ==> Ballistic(ents[id])
    ensures r.Keys == ents.Keys
  {
    map id | id in ents :: Flown(level, dt, player, targets, id, ents[id])
  }

  /** What the projectile loop collects: the projectiles it lists as expired
      and the hits it records, in query order. */
  datatype Tally = Tally(expired: seq<EntityId>, playerHits: seq<PlayerHit>, enemyHits: seq<EnemyHit>)

  ghost function Tallied(ids: seq<EntityId>, ents: map<EntityId, Entity>, level: Level, dt: real,
                         player: Option<(Vec2, Vec2)>, targets: seq<Target>): Tally
    requires level.Valid() && forall id :: id in ents ==> Ballistic(ents[id])
  {
    if ids == [] then Tally([], [], [])
    else
      var t := Tallied(ids[..|ids| - 1], ents, level, dt, player, targets);
      var id := ids[|ids| - 1];
      if id in ents && Flies(ents[id]) then Record(t, id, FlightOf(level, dt, player, targets, id, ents[id]))
      else t
  }

  lemma {:induction false} TalliedExtend(ids: seq<EntityId>, i: nat, ents: map<EntityId, Entity>, level: Level, dt: real,
                                         player: Option<(Vec2, Vec2)>, targets: seq<Target>)
    requires i < |ids|
    requires level.Valid() && forall id :: id in ents ==> Ballistic(ents[id])
    ensures var t := Tallied(ids[..i], ents, level, dt, player, targets);
            var id := ids[i];
            Tallied(ids[..i + 1], ents, level, dt, player, targets) ==
            if id in ents && Flies(ents[id]) then Record(t, id, FlightOf(level, dt, player, targets, id, ents[id])) else t
  {
    assert ids[..i + 1][..i] == ids[..i];
  }

  /** The loop keeps the factions apart: every player hit comes from an
      enemy-owned projectile of the query, every enemy hit from a
      player-owned one, with that projectile's damage; and only projectiles
      are listed. */
  lemma {:induction false} TallyRules(ids: seq<EntityId>, ents: map<EntityId, Entity>, level: Level, dt: real,
                                      player: Option<(Vec2, Vec2)>, targets: seq<Target>)
    requires level.Valid() && forall id :: id in ents ==> Ballistic(ents[id])
    ensures var t := Tallied(ids, ents, level, dt, player, targets);
            (forall id :: id in t.expired ==> id in ids && id in ents && Flies(ents[id])) &&
            (forall h :: h in t.playerHits ==>
               h.projectile in ids && h.projectile in ents && Flies(ents[h.projectile]) &&
               ents[h.projectile].projectile.value.owner == EnemyOwner &&
               h.damage == ents[h.projectile].projectile.value.damage) &&
            (forall h :: h in t.enemyHits ==>
               h.projectile in ids && h.projectile in ents && Flies(ents[h.projectile]) &&
               ents[h.projectile].projectile.value.owner == PlayerOwner &&
               h.damage == ents[h.projectile].projectile.value.damage)
  {
    if ids != [] {
      var front := ids[..|ids| - 1];
      TallyRules(front, ents, level, dt, player, targets);
      assert forall x :: x in front ==> x in ids;
      var id := ids[|ids| - 1];
      if id in ents && Flies(ents[id]) {
        var e := ents[id];
        FlightRules(level, id, e.projectile.value, e.transform.value, e.body.value, dt, player, targets);
      }
    }
  }

  /** One turn of the projectile loop: the entity `order[i]` takes its tick
      if it is a projectile, and the tally grows by what it produced. */
  method FlyEntity(level: Level, dt: real, player: Option<(Vec2, Vec2)>, targets: seq<Target>,
                   order: seq<EntityId>, i: nat, ents0: map<EntityId, Entity>, ents: map<EntityId, Entity>, tally: Tally)
    returns (ents': map<EntityId, Entity>, tally': Tally)
    requires level.Valid() && forall id :: id in ents0 ==> Ballistic(ents0[id])
    requires i < |order| && order[i] in ents0 && order[i] in ents && ents[order[i]] == ents0[order[i]]
    requires tally == Tallied(order[..i], ents0, level, dt, player, targets)
    ensures ents' == ents[order[i] := Flown(level, dt, player, targets, order[i], ents0[order[i]])]
    ensures tally' == Tallied(order[..i + 1], ents0, level, dt, player, targets)
  {
    var id := order[i];
    TalliedExtend(order, i, ents0, level, dt, player, targets);
    var e := ents[id];
    ents', tally' := ents, tally;
    if e.projectile.Some? && e.transform.Some? && e.body.Some? {
      var f := FlyOne(level, id, e.projectile.value, e.transform.value, e.body.value, dt, player, targets);
      ents' := ents[id := Apply(e, f)];
      tally' := Record(tally, id, f);
    }
  }

  /** Lines 104-219 on the components: every projectile of `order` takes
      its tick, and the loop returns what it listed and recorded. */
  method FlyAll(level: Level, dt: real, player: Option<(Vec2, Vec2)>, targets: seq<Target>,
                order: seq<EntityId>, ents0: map<EntityId, Entity>) returns (ents: map<EntityId, Entity>, tally: Tally)
    requires level.Valid() && forall id :: id in ents0 ==> Ballistic(ents0[id])
    requires Distinct(order) && forall id :: id in ents0 <==> id in order
    ensures ents.Keys == ents0.Keys
    ensures forall id :: id in ents0 ==> ents[id] == Flown(level, dt, player, targets, id, ents0[id])
    ensures tally == Tallied(order, ents0, level, dt, player, targets)
  {
    ghost var next := (e: Entity, id: EntityId) requires Ballistic(e) => Flown(level, dt, player, targets, id, e);
    ents := ents0;
    tally := Tally([], [], []);
    var i := 0;
    while i < |order|
      invariant 0 <= i <= |order|
      invariant ents == Applied(ents0, order[..i], next)
      invariant tally == Tallied(order[..i], ents0, level, dt, player, targets)
    {
      AppliedNext(ents0, order, i, next);
      ents, tally := FlyEntity(level, dt, player, targets, order, i, ents0, ents, tally);
      i := i + 1;
    }
    assert order[..i] == order;
    AppliedEvery(ents0, order, next);
  }

  /** The projectile loop on the world. */
  method MoveProjectiles(world: World, level: Level, dt: real, player: Option<(Vec2, Vec2)>, targets: seq<Target>)
    returns (tally: Tally)
    requires world.Valid() && level.Valid()
    requires forall id :: id in world.entities ==> Ballistic(world.entities[id])
    modifies world
    ensures world.Valid() && world.order == old(world.order) && world.nextId == old(world.nextId)
    ensures world.entities == FlownAll(old(world.entities), level, dt, player, targets)
    ensures tally == Tallied(world.order, old(world.entities), level, dt, player, targets)
  {
    var ents;
    ents, tally := FlyAll(level, dt, player, targets, world.order, world.entities);
    world.Store(ents);
  }

  // ------------------------------------------------------------- damage

  /** The sum of a list of damages. */
  function Sum(ds: seq<real>): real
  {
    if ds == [] then 0.0 else Sum(ds[..|ds| - 1]) + ds[|ds| - 1]
  }

  /** Health `h` after the damages `ds`, one after the other, each result
      floored at 0 as `(health - damage).max(0.0)` does. */
  function Drained(h: real, ds: seq<real>): (r: real)
    ensures ds != [] ==> r >= 0.0
    ensures (forall k :: 0 <= k < |ds| ==> ds[k] >= 0.0) ==> r <= Max(h, 0.0)
  {
    if ds == [] then h else Max(Drained(h, ds[..|ds| - 1]) - ds[|ds| - 1], 0.0)
  }

  /** With non-negative damages, clamping after each hit is the same as
      clamping once after their total. */
  lemma {:induction false} DrainedIsClampedTotal(h: real, ds: seq<real>)
    requires h >= 0.0 && forall k :: 0 <= k < |ds| ==> ds[k] >= 0.0
    ensures Drained(h, ds) == Max(h - Sum(ds), 0.0)
  {
    if ds != [] {
      DrainedIsClampedTotal(h, ds[..|ds| - 1]);
    }
  }

  /** The damages of a list of player hits. */
  function Damages(hits: seq<PlayerHit>): (ds: seq<real>)
    ensures |ds| == |hits| && forall k :: 0 <= k < |hits| ==> ds[k] == hits[k].damage
  {
    seq(|hits|, k requires 0 <= k < |hits| => hits[k].damage)
  }

  /** The projectiles of a list of hits, which lines 226 and 235 list. */
  function PlayerHitIds(hits: seq<PlayerHit>): (ids: seq<EntityId>)
    ensures |ids| == |hits| && forall k :: 0 <= k < |hits| ==> ids[k] == hits[k].projectile
  {
    seq(|hits|, k requires 0 <= k < |hits| => hits[k].projectile)
  }

  function EnemyHitIds(hits: seq<EnemyHit>): (ids: seq<EntityId>)
    ensures |ids| == |hits| && forall k :: 0 <= k < |hits| ==> ids[k] == hits[k].projectile
  {
    seq(|hits|, k requires 0 <= k < |hits| => hits[k].projectile)
  }

  /** Lines 223-225 for one damage: every entity with a `Player` loses it. */
  function Hurt(e: Entity, damage: real): (r: Entity)
    ensures r.mech == e.mech && r.enemy == e.enemy && r.player.Some? == e.player.Some?
    ensures e.player.Some? ==> r.player.value.health == Max(e.player.value.health - damage, 0.0)
  {
    if e.player.Some? then e.(player := Some(e.player.value.(health := Max(e.player.value.health - damage, 0.0))))
    else e
  }

  /** An entity after the player damages `ds`: a player's health drained. */
  function PlayerAfter(e: Entity, ds: seq<real>): (r: Entity)
    ensures r.mech == e.mech && r.enemy == e.enemy
    ensures e.player.None? ==> r == e
    ensures ds == [] ==> r == e
  {
    if e.player.Some? then e.(player := Some(e.player.value.(health := Drained(e.player.value.health, ds)))) else e
  }

  lemma HurtAfter(e: Entity, ds: seq<real>, d: real)
    ensures Hurt(PlayerAfter(e, ds), d) == PlayerAfter(e, ds + [d])
  {
    assert (ds + [d])[..|ds|] == ds;
  }

  function PlayersAfter(ents: map<EntityId, Entity>, ds: seq<real>): (r: map<EntityId, Entity>)
    ensures r.Keys == ents.Keys
  {
    map id | id in ents :: PlayerAfter(ents[id], ds)
  }

  /** Lines 223-225 for one hit: every entity of the query loses the
      damage. */
  method HurtEach(ents: map<EntityId, Entity>, order: seq<EntityId>, d: real) returns (r: map<EntityId, Entity>)
    requires Distinct(order) && forall id :: id in ents <==> id in order
    ensures r.Keys == ents.Keys
    ensures forall id :: id in ents ==> r[id] == Hurt(ents[id], d)
  {
    r := ents;
    var j := 0;
    while j < |order|
      invariant 0 <= j <= |order| && r.Keys == ents.Keys
      invariant forall k :: 0 <= k < j ==> r[order[k]] == Hurt(ents[order[k]], d)
      invariant forall k :: j <= k < |order| ==> r[order[k]] == ents[order[k]]
    {
      var id := order[j];
      r := r[id := Hurt(r[id], d)];
      j := j + 1;
    }
    forall id | id in ents
      ensures r[id] == Hurt(ents[id], d)
    {
      var k :| 0 <= k < |order| && order[k] == id;
    }
  }

  /** Lines 222-227: for every player hit, every player loses its damage and
      the projectile is listed. */
  method HurtPlayers(world: World, hits: seq<PlayerHit>) returns (listed: seq<EntityId>)
    requires world.Valid()
    modifies world
    ensures world.Valid() && world.order == old(world.order) && world.nextId == old(world.nextId)
    ensures world.entities == PlayersAfter(old(world.entities), Damages(hits))
    ensures listed == PlayerHitIds(hits)
  {
    var ents0, order := world.entities, world.order;
    var ents := ents0;
    listed := [];
    var i := 0;
    while i < |hits|
      invariant 0 <= i <= |hits| && unchanged(world)
      invariant ents.Keys == ents0.Keys
      invariant forall id :: id in ents ==> ents[id] == PlayerAfter(ents0[id], Damages(hits[..i]))
      invariant listed == PlayerHitIds(hits[..i])
    {
      var d := hits[i].damage;
      assert Damages(hits[..i + 1]) == Damages(hits[..i]) + [d];
      ents := HurtEach(ents, order, d);
      forall id | id in ents
        ensures ents[id] == PlayerAfter(ents0[id], Damages(hits[..i + 1]))
      {
        HurtAfter(ents0[id], Damages(hits[..i]), d);
      }
      assert PlayerHitIds(hits[..i + 1]) == PlayerHitIds(hits[..i]) + [hits[i].projectile];
      listed := listed + [hits[i].projectile];
      i := i + 1;
    }
    assert hits[..i] == hits;
    world.Store(ents);
  }

  /** Lines 231-233: the enemy loses the damage, floored at 0, and shows its
      health bar. */
  function Strike(en: Enemy, damage: real): (r: Enemy)
    ensures r.health == Max(en.health - damage, 0.0) && ShouldShowHealthBar(r)
    ensures r.(health := en.health, healthBarTimer := en.healthBarTimer) == en
  {
    ShowHealthBar(en.(health := Max(en.health - damage, 0.0)))
  }

  /** The entities after the enemy hits, in order; a hit on an entity that
      is gone or has no `Enemy` does nothing. */
  function StrikeAll(ents: map<EntityId, Entity>, hits: seq<EnemyHit>): (r: map<EntityId, Entity>)
    ensures r.Keys == ents.Keys
    ensures forall id :: id in r ==> r[id].mech == ents[id].mech && r[id].player == ents[id].player &&
                                     r[id].enemy.Some? == ents[id].enemy.Some?
    ensures forall id :: id in r && ents[id].enemy.None? ==> r[id] == ents[id]
  {
    if hits == [] then ents
    else
      StrikeOne(StrikeAll(ents, hits[..|hits| - 1]), hits[|hits| - 1])
  }

  /** One enemy hit. */
  function StrikeOne(m: map<EntityId, Entity>, h: EnemyHit): map<EntityId, Entity>
  {
    if h.enemy in m && m[h.enemy].enemy.Some?
    then m[h.enemy := m[h.enemy].(enemy := Some(Strike(m[h.enemy].enemy.value, h.damage)))]
    else m
  }

  /** The damages aimed at `id`, in order. */
  function DamagesTo(hits: seq<EnemyHit>, id: EntityId): seq<real>
  {
    if hits == [] then []
    else DamagesTo(hits[..|hits| - 1], id) + (if hits[|hits| - 1].enemy == id then [hits[|hits| - 1].damage] else [])
  }

  /** Each enemy's health after the hits is its health drained by exactly
      the damages aimed at it; with non-negative damages that is the clamped
      difference with their total. */
  lemma {:induction false} StrikeAllDrains(ents: map<EntityId, Entity>, hits: seq<EnemyHit>, id: EntityId)
    requires id in ents && ents[id].enemy.Some?
    ensures StrikeAll(ents, hits)[id].enemy.value.health == Drained(ents[id].enemy.value.health, DamagesTo(hits, id))
  {
    if hits != [] {
      StrikeAllDrains(ents, hits[..|hits| - 1], id);
      var h := hits[|hits| - 1];
      if h.enemy != id {
        assert DamagesTo(hits, id) == DamagesTo(hits[..|hits| - 1], id) + [];
        assert DamagesTo(hits, id) == DamagesTo(hits[..|hits| - 1], id);
      }
    }
  }

  /** Lines 230-236: every enemy hit is applied in order and its projectile
      listed. */
  method HurtEnemies(world: World, hits: seq<EnemyHit>) returns (listed: seq<EntityId>)
    requires world.Valid()
    modifies world
    ensures world.Valid() && world.order == old(world.order) && world.nextId == old(world.nextId)
    ensures world.entities == StrikeAll(old(world.entities), hits)
    ensures listed == EnemyHitIds(hits)
  {
    var ents0 := world.entities;
    var ents := ents0;
    listed := [];
    var i := 0;
    while i < |hits|
      invariant 0 <= i <= |hits| && unchanged(world)
      invariant ents == StrikeAll(ents0, hits[..i])
      invariant listed == EnemyHitIds(hits[..i])
    {
      var h := hits[i];
      assert hits[..i + 1][..i] == hits[..i];
      ents := StrikeOne(ents, h);
      assert EnemyHitIds(hits[..i + 1]) == EnemyHitIds(hits[..i]) + [h.projectile];
      listed := listed + [h.projectile];
      i := i + 1;
    }
    assert hits[..i] == hits;
    world.Store(ents);
  }

  // ------------------------------------------------------- dead enemies

  /** An enemy without health left. */
  predicate Dead(e: Entity)
  {
    e.enemy.Some? && e.enemy.value.health <= 0.0
  }

  /** The dead enemies among `ents`. */
  function DeadSet(ents: map<EntityId, Entity>): set<EntityId>
  {
    set id | id in ents && Dead(ents[id])
  }

  /** Dropping one more id is dropping the enlarged set. */
  lemma {:induction false} WithoutOneMore(ids: seq<EntityId>, gone: set<EntityId>, id: EntityId)
    ensures Without(WithoutAll(ids, gone), id) == WithoutAll(ids, gone + {id})
  {
    if ids != [] {
      WithoutOneMore(ids[1..], gone, id);
    }
  }

  /** Lines 239-244: the dead enemies, in query order. */
  method CollectDead(order: seq<EntityId>, ents: map<EntityId, Entity>) returns (dead: seq<EntityId>)
    requires forall id :: id in order ==> id in ents
    ensures forall id :: id in dead <==> id in order && Dead(ents[id])
  {
    dead := [];
    var i := 0;
    while i < |order|
      invariant 0 <= i <= |order|
      invariant forall id :: id in dead <==> id in order[..i] && Dead(ents[id])
    {
      var id := order[i];
      assert order[..i + 1] == order[..i] + [id];
      if ents[id].enemy.Some? && ents[id].enemy.value.health <= 0.0 {
        dead := dead + [id];
      }
      i := i + 1;
    }
    assert order[..i] == order;
  }

  function Elements(ids: seq<EntityId>): set<EntityId>
  {
    set k | k in ids
  }

  /** Lines 245-247: despawn every entity of `dead`. */
  method DespawnAll(world: World, dead: seq<EntityId>)
    requires world.Valid()
    modifies world
    ensures world.Valid() && world.nextId == old(world.nextId)
    ensures world.entities == old(world.entities) - Elements(dead)
    ensures world.order == WithoutAll(old(world.order), Elements(dead))
  {
    ghost var ents0, order0 := world.entities, world.order;
    WithoutAllNothing(order0);
    assert Elements(dead[..0]) == {};
    var j := 0;
    while j < |dead|
      invariant 0 <= j <= |dead| && world.Valid() && world.nextId == old(world.nextId)
      invariant world.entities == ents0 - Elements(dead[..j])
      invariant world.order == WithoutAll(order0, Elements(dead[..j]))
    {
      ghost var gone := Elements(dead[..j]);
      ElementsSnoc(dead, j);
      WithoutOneMore(order0, gone, dead[j]);
      RemoveOneMore(ents0, gone, dead[j]);
      world.Despawn(dead[j]);
      j := j + 1;
    }
    assert dead[..j] == dead;
  }

  lemma ElementsSnoc(ids: seq<EntityId>, j: nat)
    requires j < |ids|
    ensures Elements(ids[..j + 1]) == Elements(ids[..j]) + {ids[j]}
  {
    assert ids[..j + 1] == ids[..j] + [ids[j]];
  }

  lemma RemoveOneMore(ents: map<EntityId, Entity>, gone: set<EntityId>, id: EntityId)
    ensures (ents - gone) - {id} == ents - (gone + {id})
  {
  }

  /** Lines 239-247: collect the enemies with health at most 0, then
      despawn them. */
  method RemoveDead(world: World)
    requires world.Valid()
    modifies world
    ensures world.Valid() && world.nextId == old(world.nextId)
    ensures world.entities == old(world.entities) - DeadSet(old(world.entities))
    ensures world.order == WithoutAll(old(world.order), DeadSet(old(world.entities)))
  {
    var dead := CollectDead(world.order, world.entities);
    assert Elements(dead) == DeadSet(world.entities);
    DespawnAll(world, dead);
  }

  lemma {:induction false} WithoutAllNothing(ids: seq<EntityId>)
    ensures WithoutAll(ids, {}) == ids
  {
    if ids != [] {
      WithoutAllNothing(ids[1..]);
    }
  }

  // ------------------------------------------------------------ the system

  /** The first player as lines 85-92 find it. */
  method SnapshotPlayer(world: World) returns (player: Option<(Vec2, Vec2)>)
    requires world.Valid()
    ensures player == PlayerSnapshot(world.order, world.entities)
  {
    var found := world.FindFirst(PlayerSeen);
    if found.None? {
      return None;
    }
    var e := world.entities[found.value];
    player := Some((e.transform.value.position, e.player.value.size));
  }

  /** The entities once the recorded damage is applied: the players' first,
      then the enemies'. */
  ghost function Damaged(ents: map<EntityId, Entity>, level: Level, dt: real, player: Option<(Vec2, Vec2)>,
                         targets: seq<Target>, tally: Tally): (r: map<EntityId, Entity>)
    requires level.Valid() && forall id :: id in ents ==> Ballistic(ents[id])
    ensures r.Keys == ents.Keys
  {
    StrikeAll(PlayersAfter(FlownAll(ents, level, dt, player, targets), Damages(tally.playerHits)), tally.enemyHits)
  }

  /** `projectile_system`: the world after the projectiles' tick, the damage
      and the removal of the dead enemies, and the list of projectiles to
      remove: those expired or stopped by a wall, then one entry per player
      hit, then one per enemy hit. */
  method RunProjectileSystem(world: World, level: Level, dt: real) returns (expired: seq<EntityId>)
    requires world.Valid() && level.Valid()
    requires forall id :: id in world.entities ==> Ballistic(world.entities[id])
    modifies world
    ensures world.Valid() && world.nextId == old(world.nextId)
    ensures var player := PlayerSnapshot(old(world.order), old(world.entities));
            var targets := Targets(old(world.order), old(world.entities));
            var tally := Tallied(old(world.order), old(world.entities), level, dt, player, targets);
            var damaged := Damaged(old(world.entities), level, dt, player, targets, tally);
            world.entities == damaged - DeadSet(damaged) &&
            world.order == WithoutAll(old(world.order), DeadSet(damaged)) &&
            expired == tally.expired + PlayerHitIds(tally.playerHits) + EnemyHitIds(tally.enemyHits)
  {
    var player := SnapshotPlayer(world);
    var targets := SnapshotEnemies(world);
    var tally := MoveProjectiles(world, level, dt, player, targets);
    var fromPlayer := HurtPlayers(world, tally.playerHits);
    var fromEnemies := HurtEnemies(world, tally.enemyHits);
    expired := tally.expired + fromPlayer + fromEnemies;
    RemoveDead(world);
  }

  /** After the system no enemy without health is left, and an enemy the
      system leaves in the world took exactly the damages aimed at it. */
  lemma {:induction false} SurvivorsWereDrained(ents: map<EntityId, Entity>, hits: seq<EnemyHit>, id: EntityId)
    requires id in ents && ents[id].enemy.Some? && ents[id].enemy.value.health >= 0.0
    requires forall k :: 0 <= k < |hits| ==> hits[k].damage >= 0.0
    ensures var m := StrikeAll(ents, hits);
            id in m - DeadSet(m) <==> ents[id].enemy.value.health - Sum(DamagesTo(hits, id)) > 0.0
  {
    StrikeAllDrains(ents, hits, id);
    DamagesToNonNegative(hits, id);
    DrainedIsClampedTotal(ents[id].enemy.value.health, DamagesTo(hits, id));
  }

  lemma {:induction false} DamagesToNonNegative(hits: seq<EnemyHit>, id: EntityId)
    requires forall k :: 0 <= k < |hits| ==> hits[k].damage >= 0.0
    ensures var ds := DamagesTo(hits, id); forall k :: 0 <= k < |ds| ==> ds[k] >= 0.0
  {
    if hits != [] {
      var front := hits[..|hits| - 1];
      DamagesToNonNegative(front, id);
      var last := hits[|hits| - 1];
      assert last.damage >= 0.0;
      assert DamagesTo(hits, id) == DamagesTo(front, id) + (if last.enemy == id then [last.damage] else []);
    }
  }
}
