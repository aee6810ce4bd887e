/** Getting in and out of a mech (systems/mech/transformation.rs): the
    occupancy protocol, the search for the nearest free mech and the mech
    spawner. */
module MechTransformation {
  import opened Core
  import Physics
  import opened Mechs
  import MechWeapons
  import opened Ecs

  /** `TransformationResult`. */
  datatype TransformationResult = TransformationResult(success: bool, message: string)

  /** The pilot's look when it is on foot again. */
  const PilotSize: Vec2 := Vec2(24.0, 40.0)
  const PilotColor: Color := Color(57, 255, 20, 255)

  /** The mech's sprite recoloured for its occupancy, if it has one. */
  function Recolour(s: Option<Sprite>, m: Mech): (r: Option<Sprite>)
    ensures r.Some? <==> s.Some?
    ensures r.Some? ==> r.value == s.value.(color := GetColor(m))
  {
    if s.Some? then Some(s.value.(color := GetColor(m))) else None
  }

  /** Lines 45-58 after the checks: the mech takes `player` as pilot and
      shows the active colour; the player loses its sprite and collider. */
  function Board(ents: map<EntityId, Entity>, player: EntityId, mechId: EntityId): map<EntityId, Entity>
    requires mechId in ents && ents[mechId].mech.Some?
  {
    var me := ents[mechId];
    var m := me.mech.value.(isOccupied := true, pilotEntity := Some(player));
    var ents1 := ents[mechId := me.(mech := Some(m), sprite := Recolour(me.sprite, m))];
    if player in ents1 then ents1[player := ents1[player].(sprite := None, collider := None)] else ents1
  }

  /** `enter_mech`: refused, with nothing changed, when the mech entity is
      missing or has no `Mech`, when the mech is occupied, or when the player
      has no transform (checked in that order). */
  function Enter(ents: map<EntityId, Entity>, player: EntityId, mechId: EntityId)
    : (r: (map<EntityId, Entity>, TransformationResult))
    ensures r.0.Keys == ents.Keys
    ensures r.1.success <==> mechId in ents && ents[mechId].mech.Some? && !ents[mechId].mech.value.isOccupied &&
                             player in ents && ents[player].transform.Some?
    ensures !r.1.success ==> r.0 == ents
  {
    if mechId !in ents || ents[mechId].mech.None? then (ents, TransformationResult(false, "Invalid mech entity"))
    else if ents[mechId].mech.value.isOccupied then (ents, TransformationResult(false, "Mech is already occupied"))
    else if player !in ents || ents[player].transform.None? then (ents, TransformationResult(false, "Player has no transform"))
    else (Board(ents, player, mechId), TransformationResult(true, "Entered Titan mech"))
  }

  /** A successful enter: the mech is occupied by the player, keeps the
      occupancy protocol and shows the active colour; the player keeps its
      transform and body but loses its sprite and collider; no other entity
      changes. */
  lemma {:induction false} EnterRules(ents: map<EntityId, Entity>, player: EntityId, mechId: EntityId)
    requires player != mechId
    ensures var (r, res) := Enter(ents, player, mechId);
            res.success ==>
              r[mechId].mech.Some? && r[mechId].mech.value.isOccupied &&
              r[mechId].mech.value.pilotEntity == Some(player) && r[mechId].mech.value.Consistent() &&
              (r[mechId].sprite.Some? ==> r[mechId].sprite.value.color == ActiveColor) &&
              r[player].sprite.None? && r[player].collider.None? &&
              r[player].transform == ents[player].transform && r[player].body == ents[player].body &&
              (forall id :: id in ents && id != player && id != mechId ==> r[id] == ents[id])
  {
  }

  /** Lines 95-121 after the checks: the mech is freed and shows the
      inactive colour; the pilot, if it still exists, gets a 24 x 40 sprite
      and box collider back and stands 60 units right of the mech (of the
      origin, when the mech has no transform). */
  function Alight(ents: map<EntityId, Entity>, mechId: EntityId): map<EntityId, Entity>
    requires mechId in ents && ents[mechId].mech.Some? && ents[mechId].mech.value.pilotEntity.Some?
  {
    var me := ents[mechId];
    var pilot := me.mech.value.pilotEntity.value;
    var pos := if me.transform.Some? then me.transform.value.position else Zero;
    var m := me.mech.value.(isOccupied := false, pilotEntity := None);
    var ents1 := ents[mechId := me.(mech := Some(m), sprite := Recolour(me.sprite, m))];
    if pilot !in ents1 then ents1
    else
      var p := ents1[pilot].(sprite := Some(NewSprite(PilotSize, PilotColor)), collider := Some(Physics.Box(PilotSize)));
      ents1[pilot := if p.transform.Some? then p.(transform := Some(p.transform.value.(position := Vec2(pos.x + 60.0, pos.y)))) else p]
  }

  /** `exit_mech`: refused, with nothing changed, when the mech entity is
      missing or has no `Mech`, or when it is not occupied. An occupied mech
      has a pilot (the occupancy protocol), so the pilot lookup cannot
      fail. */
  function Exit(ents: map<EntityId, Entity>, mechId: EntityId): (r: (map<EntityId, Entity>, TransformationResult))
    requires mechId in ents && ents[mechId].mech.Some? ==> ents[mechId].mech.value.Consistent()
    ensures r.0.Keys == ents.Keys
    ensures r.1.success <==> mechId in ents && ents[mechId].mech.Some? && ents[mechId].mech.value.isOccupied
    ensures !r.1.success ==> r.0 == ents
  {
    if mechId !in ents || ents[mechId].mech.None? then (ents, TransformationResult(false, "Invalid mech entity"))
    else if !ents[mechId].mech.value.isOccupied then (ents, TransformationResult(false, "Mech is not occupied"))
    else (Alight(ents, mechId), TransformationResult(true, "Exited Titan mech"))
  }

  /** A successful exit frees the mech (inactive colour, protocol kept) and
      puts the pilot back on foot, 60 units right of the mech; no other
      entity changes. (A mech recorded as its own pilot would have its sprite
      replaced by the pilot's.) */
  lemma {:induction false} ExitRules(ents: map<EntityId, Entity>, mechId: EntityId)
    requires mechId in ents && ents[mechId].mech.Some? ==> ents[mechId].mech.value.Consistent()
    ensures var (r, res) := Exit(ents, mechId);
            res.success ==>
              var pilot := ents[mechId].mech.value.pilotEntity.value;
              r[mechId].mech.Some? && !r[mechId].mech.value.isOccupied && r[mechId].mech.value.Consistent() &&
              (pilot != mechId && r[mechId].sprite.Some? ==> r[mechId].sprite.value.color == InactiveColor) &&
              (pilot in ents && pilot != mechId ==>
                 r[pilot].sprite == Some(NewSprite(PilotSize, PilotColor)) &&
                 r[pilot].collider == Some(Physics.Box(PilotSize)) &&
                 (ents[pilot].transform.Some? && ents[mechId].transform.Some? ==>
                    r[pilot].transform.value.position == ents[mechId].transform.value.position.Add(Vec2(60.0, 0.0)))) &&
              (forall id :: id in ents && id != pilot && id != mechId ==> r[id] == ents[id])
  {
  }

  /** Entering and then leaving a free mech succeeds both times and gives
      the mech back exactly as it was, except for its sprite's colour, which
      is the inactive one again; the player is on foot again beside it. */
  lemma {:induction false} EnterThenExit(ents: map<EntityId, Entity>, player: EntityId, mechId: EntityId)
    requires player != mechId
    requires mechId in ents && ents[mechId].mech.Some? ==> ents[mechId].mech.value.Consistent()
    requires Enter(ents, player, mechId).1.success
    ensures var inside := Enter(ents, player, mechId).0;
            var (after, res) := Exit(inside, mechId);
            res.success && after[mechId].mech == ents[mechId].mech &&
            after[mechId].transform == ents[mechId].transform &&
            (after[mechId].sprite.Some? ==> after[mechId].sprite.value.color == InactiveColor) &&
            after[player].sprite == Some(NewSprite(PilotSize, PilotColor)) &&
            after[player].collider == Some(Physics.Box(PilotSize))
  {
    var inside := Enter(ents, player, mechId).0;
    assert inside[mechId].mech.value.pilotEntity == Some(player);
  }

  /** `enter_mech` on the world. */
  method EnterMech(world: World, player: EntityId, mechId: EntityId) returns (res: TransformationResult)
    requires world.Valid()
    modifies world
    ensures world.Valid() && world.order == old(world.order) && world.nextId == old(world.nextId)
    ensures (world.entities, res) == Enter(old(world.entities), player, mechId)
  {
    var ents := world.entities;
    if mechId !in ents || ents[mechId].mech.None? {
      return TransformationResult(false, "Invalid mech entity");
    }
    if ents[mechId].mech.value.isOccupied {
      return TransformationResult(false, "Mech is already occupied");
    }
    if player !in ents || ents[player].transform.None? {
      return TransformationResult(false, "Player has no transform");
    }
    var me := ents[mechId];
    var m := me.mech.value.(isOccupied := true, pilotEntity := Some(player));
    ents := ents[mechId := me.(mech := Some(m), sprite := Recolour(me.sprite, m))];
    ents := ents[player := ents[player].(sprite := None, collider := None)];
    world.Replace(ents);
    res := TransformationResult(true, "Entered Titan mech");
  }

  /** `exit_mech` on the world. */
  method ExitMech(world: World, mechId: EntityId) returns (res: TransformationResult)
    requires world.Valid()
    modifies world
    ensures world.Valid() && world.order == old(world.order) && world.nextId == old(world.nextId)
    ensures (world.entities, res) == Exit(old(world.entities), mechId)
  {
    var ents := world.entities;
    if mechId !in ents || ents[mechId].mech.None? {
      return TransformationResult(false, "Invalid mech entity");
    }
    if !ents[mechId].mech.value.isOccupied {
      return TransformationResult(false, "Mech is not occupied");
    }
    AlightKeepsConsistent(ents, mechId);
    ghost var after := Alight(ents, mechId);
    var me := ents[mechId];
    var pilot := me.mech.value.pilotEntity.value;
    var pos := if me.transform.Some? then me.transform.value.position else Zero;
    var m := me.mech.value.(isOccupied := false, pilotEntity := None);
    ents := ents[mechId := me.(mech := Some(m), sprite := Recolour(me.sprite, m))];
    if pilot in ents {
      var p := ents[pilot].(sprite := Some(NewSprite(PilotSize, PilotColor)), collider := Some(Physics.Box(PilotSize)));
      if p.transform.Some? {
        p := p.(transform := Some(p.transform.value.(position := Vec2(pos.x + 60.0, pos.y))));
      }
      ents := ents[pilot := p];
    }
    assert ents == after;
    world.Replace(ents);
    res := TransformationResult(true, "Exited Titan mech");
  }

  /** Leaving a mech keeps every mech's occupancy protocol. */
  lemma AlightKeepsConsistent(ents: map<EntityId, Entity>, mechId: EntityId)
    requires mechId in ents && ents[mechId].mech.Some? && ents[mechId].mech.value.pilotEntity.Some?
    requires forall id :: id in ents && ents[id].mech.Some? ==> ents[id].mech.value.Consistent()
    ensures forall id :: id in Alight(ents, mechId) && Alight(ents, mechId)[id].mech.Some? ==>
              Alight(ents, mechId)[id].mech.value.Consistent()
  {
  }

  // ------------------------------------------------------ nearest mech

  /** The query `(&Mech, &Transform)` restricted to free mechs. */
  predicate FreeMech(e: Entity)
  {
    e.mech.Some? && e.transform.Some? && !e.mech.value.isOccupied
  }

  /** The running minimum of lines 132-145 after visiting `ids`: the best
      mech so far and the distance to beat (initially `max_distance`); a mech
      replaces the best only when strictly closer. */
  function Nearest(ids: seq<EntityId>, ents: map<EntityId, Entity>, pos: Vec2, maxDistance: real,
                   length: Vec2 -> real): (r: (Option<EntityId>, real))
    ensures r.1 <= maxDistance
    ensures r.0.None? ==> r.1 == maxDistance
    ensures r.0.Some? ==> r.0.value in ids && r.0.value in ents && FreeMech(ents[r.0.value]) &&
                          r.1 == length(ents[r.0.value].transform.value.position.Sub(pos))
  {
    if ids == [] then (None, maxDistance)
    else
      var best := Nearest(ids[..|ids| - 1], ents, pos, maxDistance, length);
      var id := ids[|ids| - 1];
      if id in ents && FreeMech(ents[id]) && length(ents[id].transform.value.position.Sub(pos)) < best.1
      then (Some(id), length(ents[id].transform.value.position.Sub(pos)))
      else best
  }

  /** The distance from `pos` to the mech `id`. */
  function DistanceTo(ents: map<EntityId, Entity>, id: EntityId, pos: Vec2, length: Vec2 -> real): real
    requires id in ents && ents[id].transform.Some?
  {
    length(ents[id].transform.value.position.Sub(pos))
  }

  /** `find_nearest_mech` finds a free mech closer than `max_distance` that
      no other free mech beats, and the first one among equals; it finds
      none exactly when no free mech is closer than `max_distance`. */
  lemma {:induction false} NearestIsNearest(ids: seq<EntityId>, ents: map<EntityId, Entity>, pos: Vec2,
                                            maxDistance: real, length: Vec2 -> real)
    requires Distinct(ids)
    ensures var (best, d) := Nearest(ids, ents, pos, maxDistance, length);
            (best.Some? ==> d < maxDistance) &&
            (forall k :: 0 <= k < |ids| && ids[k] in ents && FreeMech(ents[ids[k]]) ==>
               d <= DistanceTo(ents, ids[k], pos, length)) &&
            (forall k, p :: 0 <= k < p < |ids| && best == Some(ids[p]) && ids[k] in ents && FreeMech(ents[ids[k]]) ==>
               d < DistanceTo(ents, ids[k], pos, length))
  {
    if ids != [] {
      var front := ids[..|ids| - 1];
      NearestIsNearest(front, ents, pos, maxDistance, length);
      var prev := Nearest(front, ents, pos, maxDistance, length);
      var last := ids[|ids| - 1];
      forall k, p | 0 <= k < p < |ids| && Nearest(ids, ents, pos, maxDistance, length).0 == Some(ids[p]) &&
                    ids[k] in ents && FreeMech(ents[ids[k]])
        ensures Nearest(ids, ents, pos, maxDistance, length).1 < DistanceTo(ents, ids[k], pos, length)
      {
        if p == |ids| - 1 {
          assert front[k] == ids[k];
        } else {
          assert ids[p] != last;
          assert front[p] == ids[p] && front[k] == ids[k];
        }
      }
      forall k | 0 <= k < |ids| && ids[k] in ents && FreeMech(ents[ids[k]])
        ensures Nearest(ids, ents, pos, maxDistance, length).1 <= DistanceTo(ents, ids[k], pos, length)
      {
        if k < |ids| - 1 {
          assert front[k] == ids[k];
        }
      }
    }
  }

  lemma {:induction false} NearestExtend(ids: seq<EntityId>, i: nat, ents: map<EntityId, Entity>, pos: Vec2,
                                         maxDistance: real, length: Vec2 -> real)
    requires i < |ids|
    ensures var best := Nearest(ids[..i], ents, pos, maxDistance, length);
            var id := ids[i];
            Nearest(ids[..i + 1], ents, pos, maxDistance, length) ==
            if id in ents && FreeMech(ents[id]) && length(ents[id].transform.value.position.Sub(pos)) < best.1
            then (Some(id), length(ents[id].transform.value.position.Sub(pos)))
            else best
  {
    assert ids[..i + 1][..i] == ids[..i];
  }

  /** `find_nearest_mech`, with the running minimum. */
  method FindNearestMech(world: World, pos: Vec2, maxDistance: real, length: Vec2 -> real) returns (r: Option<EntityId>)
    requires world.Valid()
    ensures r == Nearest(world.order, world.entities, pos, maxDistance, length).0
  {
    var nearest: Option<EntityId> := None;
    var nearestDistance := maxDistance;
    var i := 0;
    while i < |world.order|
      invariant 0 <= i <= |world.order|
      invariant (nearest, nearestDistance) == Nearest(world.order[..i], world.entities, pos, maxDistance, length)
    {
      var id := world.order[i];
      NearestExtend(world.order, i, world.entities, pos, maxDistance, length);
      var e := world.entities[id];
      if e.mech.Some? && e.transform.Some? && !e.mech.value.isOccupied {
        var distance := length(e.transform.value.position.Sub(pos));
        if distance < nearestDistance {
          nearestDistance := distance;
          nearest := Some(id);
        }
      }
      i := i + 1;
    }
    assert world.order[..i] == world.order;
    r := nearest;
  }

  // ------------------------------------------------------------- spawn

  /** The entity `spawn_mech` creates: a fresh mech with its controller and
      weapons, at `position`, heavy (mass 10), drawn and collided at the
      mech's size in the inactive colour. */
  function MechEntity(position: Vec2): (e: Entity)
    ensures e.mech == Some(NewMech()) && e.mech.value.Consistent() && !e.mech.value.isOccupied
    ensures e.body == Some(Physics.NewBody(10.0)) && e.body.value.mass == 10.0
    ensures e.sprite == Some(NewSprite(NewMech().size, InactiveColor))
    ensures e.transform == Some(NewTransform(position)) && e.collider == Some(Physics.Box(NewMech().size))
    ensures e.player.None? && e.enemy.None? && e.projectile.None?
  {
    var m := NewMech();
    Bare.(mech := Some(m), mechController := Some(NewMechController()),
          mechWeapons := Some(MechWeapons.NewMechWeaponInventory()),
          transform := Some(NewTransform(position)), sprite := Some(NewSprite(m.size, GetColor(m))),
          body := Some(Physics.NewBody(10.0)), collider := Some(Physics.Box(m.size)))
  }

  /** `spawn_mech`. */
  method SpawnMech(world: World, position: Vec2) returns (id: EntityId)
    requires world.Valid()
    modifies world
    ensures world.Valid() && id == old(world.nextId) && id !in old(world.entities)
    ensures world.entities == old(world.entities)[id := MechEntity(position)]
    ensures world.order == old(world.order) + [id]
  {
    id := world.Spawn(MechEntity(position));
  }
}
