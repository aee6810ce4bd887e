/** The entity store the systems run on (the `hecs::World` of the game): every
    entity is a record of optional components, the world maps live entity ids
    to their records and keeps the order in which queries visit them. */
module Ecs {
  import opened Core
  import Physics
  import Projectiles
  import Enemies
  import Players
  import Mechs
  import MechWeapons

  type EntityId = Mechs.EntityId

  /** One entity: the components it carries. The two markers are the
      zero-sized `CollectibleMarker` and `GoalMarker` components. */
  datatype Entity = Entity(
    transform: Option<Transform>,
    body: Option<Physics.RigidBody>,
    sprite: Option<Sprite>,
    collider: Option<Physics.Collider>,
    player: Option<Players.Player>,
    playerController: Option<Players.PlayerController>,
    enemy: Option<Enemies.Enemy>,
    enemyController: Option<Enemies.EnemyController>,
    projectile: Option<Projectiles.Projectile>,
    mech: Option<Mechs.Mech>,
    mechController: Option<Mechs.MechController>,
    mechWeapons: Option<MechWeapons.MechWeaponInventory>,
    collectibleMarker: bool,
    goalMarker: bool)

  /** An entity without components, to build others from. */
  const Bare: Entity := Entity(None, None, None, None, None, None, None, None, None, None, None, None, false, false)

  /** No id occurs twice. */
  predicate Distinct(ids: seq<EntityId>)
  {
    forall i, j :: 0 <= i < j < |ids| ==> ids[i] != ids[j]
  }

  /** The ids of `ids` other than `id`, in order. */
  function Without(ids: seq<EntityId>, id: EntityId): (r: seq<EntityId>)
    ensures forall k :: k in r <==> k in ids && k != id
    ensures |r| <= |ids|
  {
    if ids == [] then []
    else if ids[0] == id then Without(ids[1..], id)
    else [ids[0]] + Without(ids[1..], id)
  }

  /** The ids of `ids` that are not in `gone`, in order. */
  function WithoutAll(ids: seq<EntityId>, gone: set<EntityId>): (r: seq<EntityId>)
    ensures forall k :: k in r <==> k in ids && k !in gone
  {
    if ids == [] then []
    else if ids[0] in gone then WithoutAll(ids[1..], gone)
    else [ids[0]] + WithoutAll(ids[1..], gone)
  }

  /** The number of live entities of `ids` that satisfy `p` (a query's
      `.count()`). */
  function CountWhere(ids: seq<EntityId>, ents: map<EntityId, Entity>, p: Entity -> bool): (n: nat)
    ensures n <= |ids|
    ensures n == 0 <==> forall i :: 0 <= i < |ids| ==> !(ids[i] in ents && p(ents[ids[i]]))
  {
    if ids == [] then 0
    else CountWhere(ids[..|ids| - 1], ents, p) +
         (if ids[|ids| - 1] in ents && p(ents[ids[|ids| - 1]]) then 1 else 0)
  }

  /** The position in `ids` of the first live entity satisfying `p`: what a
      query loop that stops at its first match finds. */
  function FirstWhere(ids: seq<EntityId>, ents: map<EntityId, Entity>, p: Entity -> bool): (r: Option<nat>)
    ensures r.Some? ==> r.value < |ids| && ids[r.value] in ents && p(ents[ids[r.value]])
    ensures r.Some? ==> forall j :: 0 <= j < r.value ==> !(ids[j] in ents && p(ents[ids[j]]))
    ensures r.None? <==> forall j :: 0 <= j < |ids| ==> !(ids[j] in ents && p(ents[ids[j]]))
  {
    if ids == [] then None
    else if ids[0] in ents && p(ents[ids[0]]) then Some(0)
    else match FirstWhere(ids[1..], ents, p)
         case None => None
         case Some(k) => Some(k + 1)
  }

  /** The `&Enemy` query. */
  predicate HasEnemy(e: Entity)
  {
    e.enemy.Some?
  }

  /** The requests a `query_mut` loop collects when every entity of `ids`
      takes `step` in turn: each entity's requests, in query order. */
  function Requests<T>(ids: seq<EntityId>, ents: map<EntityId, Entity>,
                        step: (Entity, EntityId) --> (Entity, seq<T>)): seq<T>
    requires forall id :: id in ents ==> step.requires(ents[id], id)
  {
    if ids == [] then []
    else
      var id := ids[|ids| - 1];
      Requests(ids[..|ids| - 1], ents, step) + (if id in ents then step(ents[id], id).1 else [])
  }

  /** The entities after each entity of `ids` has taken the step `next`
      from its state in `ents`. */
  ghost function Applied(ents: map<EntityId, Entity>, ids: seq<EntityId>,
                         next: (Entity, EntityId) --> Entity): (r: map<EntityId, Entity>)
    requires forall id :: id in ents ==> next.requires(ents[id], id)
    ensures r.Keys == ents.Keys
  {
    if ids == [] then ents
    else
      var id := ids[|ids| - 1];
      var m := Applied(ents, ids[..|ids| - 1], next);
      if id in ents then m[id := next(ents[id], id)] else m
  }

  /** An entity of `ids` has taken its step, any other is as it was. */
  lemma {:induction false} AppliedAt(ents: map<EntityId, Entity>, ids: seq<EntityId>,
                                     next: (Entity, EntityId) --> Entity, id: EntityId)
    requires forall id :: id in ents ==> next.requires(ents[id], id)
    requires id in ents
    ensures Applied(ents, ids, next)[id] == if id in ids then next(ents[id], id) else ents[id]
  {
    if ids != [] {
      AppliedAt(ents, ids[..|ids| - 1], next, id);
      assert id in ids <==> id in ids[..|ids| - 1] || id == ids[|ids| - 1];
    }
  }

  /** One more step of a loop over distinct ids: the entity it visits has not
      moved yet, and afterwards it alone has changed. */
  lemma AppliedNext(ents: map<EntityId, Entity>, ids: seq<EntityId>, i: nat, next: (Entity, EntityId) --> Entity)
    requires forall id :: id in ents ==> next.requires(ents[id], id)
    requires Distinct(ids) && i < |ids| && ids[i] in ents
    ensures Applied(ents, ids[..i], next)[ids[i]] == ents[ids[i]]
    ensures Applied(ents, ids[..i + 1], next) == Applied(ents, ids[..i], next)[ids[i] := next(ents[ids[i]], ids[i])]
  {
    assert ids[..i + 1][..i] == ids[..i];
    assert ids[i] !in ids[..i];
    AppliedAt(ents, ids[..i], next, ids[i]);
  }

  /** After a pass over every id, every entity has taken its step. */
  lemma AppliedEvery(ents: map<EntityId, Entity>, ids: seq<EntityId>, next: (Entity, EntityId) --> Entity)
    requires forall id :: id in ents ==> next.requires(ents[id], id)
    requires forall id :: id in ents ==> id in ids
    ensures forall id :: id in ents ==> Applied(ents, ids, next)[id] == next(ents[id], id)
  {
    forall id | id in ents
      ensures Applied(ents, ids, next)[id] == next(ents[id], id)
    {
      AppliedAt(ents, ids, next, id);
    }
  }

  /** A `query_mut` loop on the entities themselves: each entity of `order`
      takes `step` once, in query order, and the requests it makes are
      collected. No entity is added or removed. */
  method StepAll<T>(ents0: map<EntityId, Entity>, order: seq<EntityId>, step: (Entity, EntityId) --> (Entity, seq<T>))
    returns (ents: map<EntityId, Entity>, requests: seq<T>)
    requires Distinct(order) && forall id :: id in ents0 <==> id in order
    requires forall id :: id in ents0 ==> step.requires(ents0[id], id)
    ensures ents.Keys == ents0.Keys
    ensures forall id :: id in ents0 ==> ents[id] == step(ents0[id], id).0
    ensures requests == Requests(order, ents0, step)
  {
    ghost var next := (e: Entity, id: EntityId) requires step.requires(e, id) => step(e, id).0;
    requests := [];
    ents := ents0;
    var i := 0;
    while i < |order|
      invariant 0 <= i <= |order|
      invariant ents == Applied(ents0, order[..i], next)
      invariant requests == Requests(order[..i], ents0, step)
    {
      var id := order[i];
      AppliedNext(ents0, order, i, next);
      assert order[..i + 1][..i] == order[..i];
      var (e, made) := step(ents[id], id);
      assert e == next(ents0[id], id);
      ents := ents[id := e];
      requests := requests + made;
      i := i + 1;
    }
    assert order[..i] == order;
    AppliedEvery(ents0, order, next);
    assert forall id :: id in ents0 ==> next(ents0[id], id) == step(ents0[id], id).0;
  }


  /** The world. `order` is the order in which queries visit the entities. */
  class World {
    var entities: map<EntityId, Entity>
    var order: seq<EntityId>
    var nextId: EntityId

    /** Every live entity is listed once in `order`, every id handed out so
        far is below `nextId`, and every mech keeps the occupancy protocol. */
    ghost predicate Valid()
      reads this
    {
      Distinct(order) &&
      (forall id :: id in entities <==> id in order) &&
      (forall id :: id in entities ==> id < nextId) &&
      (forall id :: id in entities && entities[id].mech.Some? ==> entities[id].mech.value.Consistent())
    }

    /** An empty world. */
    constructor ()
      ensures Valid() && entities == map[] && order == [] && nextId == 0
    {
      entities := map[];
      order := [];
      nextId := 0;
    }

    /** `World::spawn`: a fresh id, visited after every existing entity. */
    method Spawn(e: Entity) returns (id: EntityId)
      requires Valid()
      requires e.mech.Some? ==> e.mech.value.Consistent()
      modifies this
      ensures Valid()
      ensures id == old(nextId) && id !in old(entities)
      ensures entities == old(entities)[id := e] && order == old(order) + [id] && nextId == id + 1
    {
      id := nextId;
      assert id !in order;
      entities := entities[id := e];
      order := order + [id];
      nextId := nextId + 1;
    }

    /** `World::despawn`: the entity disappears; despawning a dead id does
        nothing. */
    method Despawn(id: EntityId)
      requires Valid()
      modifies this
      ensures Valid()
      ensures entities == old(entities) - {id} && order == Without(old(order), id) && nextId == old(nextId)
    {
      WithoutKeepsDistinct(order, id);
      entities := entities - {id};
      order := Without(order, id);
    }

    /** Writes back the components a query borrowed mutably: the same
        entities, each with its own mech. */
    method Store(ents: map<EntityId, Entity>)
      requires Valid() && ents.Keys == entities.Keys
      requires forall id :: id in ents ==> ents[id].mech == entities[id].mech
      modifies this
      ensures Valid()
      ensures entities == ents && order == old(order) && nextId == old(nextId)
    {
      entities := ents;
    }

    /** Writes back structural changes to existing entities (components
        added, removed or replaced), each mech still keeping the occupancy
        protocol. */
    method Replace(ents: map<EntityId, Entity>)
      requires Valid() && ents.Keys == entities.Keys
      requires forall id :: id in ents && ents[id].mech.Some? ==> ents[id].mech.value.Consistent()
      modifies this
      ensures Valid()
      ensures entities == ents && order == old(order) && nextId == old(nextId)
    {
      entities := ents;
    }

    /** The number of entities whose components satisfy `p`: a query's
        `.iter().count()`. */
    method Count(p: Entity -> bool) returns (n: nat)
      requires Valid()
      ensures n == CountWhere(order, entities, p)
    {
      n := 0;
      var i := 0;
      while i < |order|
        invariant 0 <= i <= |order|
        invariant n == CountWhere(order[..i], entities, p)
      {
        assert order[..i + 1][..i] == order[..i];
        if p(entities[order[i]]) {
          n := n + 1;
        }
        i := i + 1;
      }
      assert order[..i] == order;
    }

    /** The first entity, in query order, whose components satisfy `p`: the
        `for ... { ...; break; }` loops the systems use to find the player. */
    method FindFirst(p: Entity -> bool) returns (r: Option<EntityId>)
      requires Valid()
      ensures r.Some? <==> FirstWhere(order, entities, p).Some?
      ensures r.Some? ==> r.value == order[FirstWhere(order, entities, p).value]
    {
      var i := 0;
      while i < |order|
        invariant 0 <= i <= |order|
        invariant forall j :: 0 <= j < i ==> !(order[j] in entities && p(entities[order[j]]))
      {
        var id := order[i];
        if p(entities[id]) {
          FirstWhereIsFirst(order, entities, p, i);
          return Some(id);
        }
        i := i + 1;
      }
      return None;
    }
  }

  /** Dropping ids keeps the rest distinct. */
  lemma {:induction false} WithoutKeepsDistinct(ids: seq<EntityId>, id: EntityId)
    requires Distinct(ids)
    ensures Distinct(Without(ids, id))
  {
    if ids != [] {
      WithoutKeepsDistinct(ids[1..], id);
      assert ids[0] !in ids[1..] by {
        forall j | 0 <= j < |ids[1..]| ensures ids[1..][j] != ids[0] {
          assert ids[1..][j] == ids[j + 1];
        }
      }
    }
  }

  lemma {:induction false} WithoutAllKeepsDistinct(ids: seq<EntityId>, gone: set<EntityId>)
    requires Distinct(ids)
    ensures Distinct(WithoutAll(ids, gone))
  {
    if ids != [] {
      WithoutAllKeepsDistinct(ids[1..], gone);
    }
  }

  /** The first match is the one whose predecessors all fail. */
  lemma {:induction false} FirstWhereIsFirst(ids: seq<EntityId>, ents: map<EntityId, Entity>, p: Entity -> bool, i: nat)
    requires i < |ids| && ids[i] in ents && p(ents[ids[i]])
    requires forall j :: 0 <= j < i ==> !(ids[j] in ents && p(ents[ids[j]]))
    ensures FirstWhere(ids, ents, p) == Some(i)
    decreases i
  {
    if i > 0 {
      FirstWhereIsFirst(ids[1..], ents, p, i - 1);
    }
  }

  /** Spawning an entity that satisfies `p` adds one to the count of such
      entities, and spawning any other leaves the count alone. */
  lemma {:induction false} CountAfterSpawn(ids: seq<EntityId>, ents: map<EntityId, Entity>, p: Entity -> bool,
                                           id: EntityId, e: Entity)
    requires id !in ids
    ensures CountWhere(ids + [id], ents[id := e], p) == CountWhere(ids, ents, p) + (if p(e) then 1 else 0)
  {
    CountUnchanged(ids, ents, p, id, e);
    assert (ids + [id])[..|ids|] == ids;
  }

  /** Updating an entity outside `ids` does not change counts over `ids`. */
  lemma {:induction false} CountUnchanged(ids: seq<EntityId>, ents: map<EntityId, Entity>, p: Entity -> bool,
                                          id: EntityId, e: Entity)
    requires id !in ids
    ensures CountWhere(ids, ents[id := e], p) == CountWhere(ids, ents, p)
  {
    if ids != [] {
      CountUnchanged(ids[..|ids| - 1], ents, p, id, e);
    }
  }
}
