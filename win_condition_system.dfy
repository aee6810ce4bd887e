/** The systems between the world and the level manager
    (systems/win_condition_system.rs): checking the objective, picking up
    collectibles the player touches, and spawning the collectible and goal
    markers. */
module WinConditionSystem {
  import opened Core
  import opened Levels
  import opened WinConditions
  import opened LevelManagers
  import opened Ecs
  import opened ProjectileSystem

  // ----------------------------------------------------------- objective

  /** Lines 13-18: the first player's position, or the origin when there is
      no player. */
  function PlayerPosition(ids: seq<EntityId>, ents: map<EntityId, Entity>): (p: Vec2)
    ensures PlayerSnapshot(ids, ents).None? ==> p == Zero
    ensures PlayerSnapshot(ids, ents).Some? ==> p == PlayerSnapshot(ids, ents).value.0
  {
    match PlayerSnapshot(ids, ents)
    case None => Zero
    case Some((pos, _)) => pos
  }

  /** `check_win_conditions`: the current level's objective checked with the
      player's position and the number of enemies; the level manager latches
      completion. */
  method CheckWinConditions(world: World, lm: LevelManager, length: Vec2 -> real)
    returns (complete: bool, progress: WinProgress)
    requires world.Valid() && lm.Valid()
    modifies lm
    ensures lm.Valid()
    ensures var st := Status(PlayerPosition(world.order, world.entities), CountWhere(world.order, world.entities, HasEnemy),
                             old(lm.levelTimeElapsed), old(lm.itemsCollected), old(lm.bossDefeated));
            (complete, progress) == CheckCompletion(old(lm.levels[lm.currentLevelIndex]).winCondition, st, length)
    ensures lm.levelComplete == (old(lm.levelComplete) || complete)
    ensures lm.levels == old(lm.levels) && lm.currentLevelIndex == old(lm.currentLevelIndex)
    ensures lm.levelTimeElapsed == old(lm.levelTimeElapsed) && lm.itemsCollected == old(lm.itemsCollected)
    ensures lm.bossDefeated == old(lm.bossDefeated) && lm.allLevelsComplete == old(lm.allLevelsComplete)
  {
    var player := SnapshotPlayer(world);
    var playerPos := if player.Some? then player.value.0 else Zero;
    var enemyCount := world.Count(HasEnemy);
    complete, progress := lm.CheckWinCondition(playerPos, enemyCount, length);
  }

  // --------------------------------------------------------- collectibles

  /** The 32 x 32 square a collectible occupies. */
  function ItemRect(pos: Vec2): (r: Rect)
    ensures r == Rect(pos.x - 16.0, pos.y - 16.0, 32.0, 32.0)
  {
    CenteredRect(pos, Vec2(32.0, 32.0))
  }

  /** The item is still there and the player's rectangle overlaps it. */
  predicate Touches(playerRect: Rect, c: Collectible)
  {
    !c.collected && Intersects(playerRect, ItemRect(c.position))
  }

  /** The collectibles after the player at `playerRect` has picked up every
      item it touches. */
  function PickedUp(cs: seq<Collectible>, playerRect: Rect): (r: seq<Collectible>)
    ensures |r| == |cs|
    ensures forall i :: 0 <= i < |cs| ==> r[i].position == cs[i].position
    ensures forall i :: 0 <= i < |cs| ==> (r[i].collected <==> cs[i].collected || Touches(playerRect, cs[i]))
  {
    seq(|cs|, i requires 0 <= i < |cs| => if Touches(playerRect, cs[i]) then cs[i].(collected := true) else cs[i])
  }

  /** Picking up never loses an item, and adds exactly the touched ones:
      the count rises by the number of items touched. */
  lemma {:induction false} PickedUpCounts(cs: seq<Collectible>, playerRect: Rect)
    ensures Collected(PickedUp(cs, playerRect)) == Collected(cs) + Touched(cs, playerRect)
  {
    if cs != [] {
      var n := |cs| - 1;
      PickedUpCounts(cs[..n], playerRect);
      assert PickedUp(cs, playerRect)[..n] == PickedUp(cs[..n], playerRect);
    }
  }

  /** The number of items the player touches. */
  function Touched(cs: seq<Collectible>, playerRect: Rect): (n: nat)
    ensures n <= |cs| - Collected(cs)
  {
    if cs == [] then 0
    else Touched(cs[..|cs| - 1], playerRect) + (if Touches(playerRect, cs[|cs| - 1]) then 1 else 0)
  }

  /** `check_collectibles`: with a player present, every item of the current
      level that is still there and overlaps the player's rectangle is
      collected (the flags are read from a copy taken before the loop);
      without a player nothing happens. */
  method CheckCollectibles(world: World, lm: LevelManager)
    requires world.Valid() && lm.Valid()
    modifies lm
    ensures lm.Valid() && lm.currentLevelIndex == old(lm.currentLevelIndex)
    ensures var player := PlayerSnapshot(world.order, world.entities);
            var cur := old(lm.currentLevelIndex);
            var level := old(lm.levels[lm.currentLevelIndex]);
            if player.None? then lm.levels == old(lm.levels) && lm.itemsCollected == old(lm.itemsCollected)
            else lm.levels == old(lm.levels)[cur := level.(
                   collectibles := PickedUp(level.collectibles, CenteredRect(player.value.0, player.value.1)))]
    ensures lm.levelTimeElapsed == old(lm.levelTimeElapsed) && lm.bossDefeated == old(lm.bossDefeated)
    ensures lm.levelComplete == old(lm.levelComplete) && lm.allLevelsComplete == old(lm.allLevelsComplete)
  {
    var player := SnapshotPlayer(world);
    if player.None? {
      return;
    }
    var playerRect := CenteredRect(player.value.0, player.value.1);
    var cur := lm.currentLevelIndex;
    var level := lm.levels[cur];
    var levels0 := lm.levels;
    var collectibles := level.collectibles;
    var index := 0;
    while index < |collectibles|
      invariant 0 <= index <= |collectibles|
      invariant lm.Valid() && lm.currentLevelIndex == cur && |lm.levels| == |levels0|
      invariant lm.levels == levels0[cur := lm.levels[cur]]
      invariant lm.levels[cur] == level.(collectibles := lm.levels[cur].collectibles)
      invariant |lm.levels[cur].collectibles| == |collectibles|
      invariant forall j :: 0 <= j < index ==>
                  lm.levels[cur].collectibles[j] == PickedUp(collectibles, playerRect)[j]
      invariant forall j :: index <= j < |collectibles| ==> lm.levels[cur].collectibles[j] == collectibles[j]
      invariant lm.levelTimeElapsed == old(lm.levelTimeElapsed) && lm.bossDefeated == old(lm.bossDefeated)
      invariant lm.levelComplete == old(lm.levelComplete) && lm.allLevelsComplete == old(lm.allLevelsComplete)
    {
      var c := collectibles[index];
      if !c.collected {
        if Intersects(playerRect, CenteredRect(c.position, Vec2(32.0, 32.0))) {
          var ok := lm.CollectItem(index);
        }
      }
      index := index + 1;
    }
    assert lm.levels[cur].collectibles == PickedUp(collectibles, playerRect);
  }

  // -------------------------------------------------------------- markers

  /** The marker entities `spawn_collectibles` creates. */
  function CollectibleMarkerAt(pos: Vec2): (e: Entity)
    ensures e.collectibleMarker && !e.goalMarker && e.transform == Some(NewTransform(pos))
    ensures e.sprite == Some(NewSprite(Vec2(32.0, 32.0), Color(100, 200, 255, 255)))
  {
    Bare.(collectibleMarker := true, transform := Some(NewTransform(pos)),
          sprite := Some(NewSprite(Vec2(32.0, 32.0), Color(100, 200, 255, 255))))
  }

  /** One marker per item still there, in order. */
  function Markers(cs: seq<Collectible>): (ms: seq<Entity>)
    ensures |ms| == |cs| - Collected(cs)
  {
    if cs == [] then []
    else
      var n := |cs| - 1;
      Markers(cs[..n]) + (if cs[n].collected then [] else [CollectibleMarkerAt(cs[n].position)])
  }

  /** Each marker stands on an item that is still there. */
  lemma {:induction false} MarkersMarkItems(cs: seq<Collectible>)
    ensures forall k :: 0 <= k < |Markers(cs)| ==>
              exists i :: 0 <= i < |cs| && !cs[i].collected && Markers(cs)[k] == CollectibleMarkerAt(cs[i].position)
  {
    if cs != [] {
      var n := |cs| - 1;
      var front := Markers(cs[..n]);
      MarkersMarkItems(cs[..n]);
      forall k | 0 <= k < |Markers(cs)|
        ensures exists i :: 0 <= i < |cs| && !cs[i].collected && Markers(cs)[k] == CollectibleMarkerAt(cs[i].position)
      {
        if k < |front| {
          assert Markers(cs)[k] == front[k];
          var i :| 0 <= i < |cs[..n]| && !cs[..n][i].collected && front[k] == CollectibleMarkerAt(cs[..n][i].position);
          assert cs[..n][i] == cs[i];
          assert 0 <= i < |cs| && !cs[i].collected && Markers(cs)[k] == CollectibleMarkerAt(cs[i].position);
        } else {
          assert !cs[n].collected && Markers(cs)[k] == CollectibleMarkerAt(cs[n].position);
        }
      }
    } else {
      assert |Markers(cs)| == 0;
    }
  }

  lemma {:induction false} MarkersExtend(cs: seq<Collectible>, i: nat)
    requires i < |cs|
    ensures Markers(cs[..i + 1]) ==
            Markers(cs[..i]) + (if cs[i].collected then [] else [CollectibleMarkerAt(cs[i].position)])
  {
    assert cs[..i + 1][..i] == cs[..i];
  }

  /** The ids `start`, `start + 1`, ..., `start + n - 1`. */
  function Ids(start: EntityId, n: nat): (r: seq<EntityId>)
    ensures |r| == n && forall k :: 0 <= k < n ==> r[k] == start + k
  {
    seq(n, k requires 0 <= k < n => start + k)
  }

  /** The entities after spawning `es` one by one from id `next` on. */
  function Spawned(ents: map<EntityId, Entity>, next: EntityId, es: seq<Entity>): map<EntityId, Entity>
  {
    if es == [] then ents
    else
      var n := |es| - 1;
      Spawned(ents, next, es[..n])[next + n := es[n]]
  }

  /** Spawning adds exactly the ids from `next` on, the k-th holding the
      k-th entity, and leaves the entities below `next` as they were. */
  lemma {:induction false} SpawnedRules(ents: map<EntityId, Entity>, next: EntityId, es: seq<Entity>)
    ensures var r := Spawned(ents, next, es);
            (forall id :: id in r <==> id in ents || next <= id < next + |es|) &&
            (forall k :: 0 <= k < |es| ==> next + k in r && r[next + k] == es[k]) &&
            (forall id :: id in ents && id < next ==> r[id] == ents[id])
  {
    if es != [] {
      SpawnedRules(ents, next, es[..|es| - 1]);
    }
  }

  lemma {:induction false} IdsExtend(start: EntityId, n: nat)
    ensures Ids(start, n + 1) == Ids(start, n) + [start + n]
  {
    var a, b := Ids(start, n + 1), Ids(start, n) + [start + n];
    forall k | 0 <= k < n + 1
      ensures a[k] == b[k]
    {
      if k < n {
        assert b[k] == Ids(start, n)[k];
      }
    }
  }

  lemma {:induction false} SpawnedExtend(ents: map<EntityId, Entity>, next: EntityId, es: seq<Entity>, e: Entity)
    ensures Spawned(ents, next, es + [e]) == Spawned(ents, next, es)[next + |es| := e]
  {
    assert (es + [e])[..|es|] == es;
  }

  /** One more spawn in a run of spawns from `next0` on. */
  method SpawnNext(world: World, ghost ents0: map<EntityId, Entity>, ghost order0: seq<EntityId>, ghost next0: EntityId,
                   ghost ms: seq<Entity>, e: Entity)
    requires world.Valid() && e.mech.None?
    requires world.entities == Spawned(ents0, next0, ms)
    requires world.order == order0 + Ids(next0, |ms|) && world.nextId == next0 + |ms|
    modifies world
    ensures world.Valid()
    ensures world.entities == Spawned(ents0, next0, ms + [e])
    ensures world.order == order0 + Ids(next0, |ms + [e]|) && world.nextId == next0 + |ms + [e]|
  {
    var id := world.Spawn(e);
    SpawnedExtend(ents0, next0, ms, e);
    IdsExtend(next0, |ms|);
  }

  /** `spawn_collectibles`: a marker for every item of the current level
      still there, spawned in order with fresh ids. */
  method SpawnCollectibles(world: World, lm: LevelManager)
    requires world.Valid() && lm.Valid()
    modifies world
    ensures world.Valid()
    ensures var ms := Markers(lm.levels[lm.currentLevelIndex].collectibles);
            world.entities == Spawned(old(world.entities), old(world.nextId), ms) &&
            world.order == old(world.order) + Ids(old(world.nextId), |ms|) &&
            world.nextId == old(world.nextId) + |ms|
  {
    var collectibles := lm.GetCurrentLevel().collectibles;
    SpawnMarkers(world, collectibles);
  }

  /** The loop of `spawn_collectibles`: a marker for each collectible not yet
      collected, in the level's order. */
  method SpawnMarkers(world: World, collectibles: seq<Collectible>)
    requires world.Valid()
    modifies world
    ensures world.Valid()
    ensures var ms := Markers(collectibles);
            world.entities == Spawned(old(world.entities), old(world.nextId), ms) &&
            world.order == old(world.order) + Ids(old(world.nextId), |ms|) &&
            world.nextId == old(world.nextId) + |ms|
  {
    ghost var ents0, order0, next0 := world.entities, world.order, world.nextId;
    ghost var ms: seq<Entity> := [];
    var i := 0;
    while i < |collectibles|
      invariant 0 <= i <= |collectibles| && world.Valid()
      invariant ms == Markers(collectibles[..i])
      invariant world.entities == Spawned(ents0, next0, ms)
      invariant world.order == order0 + Ids(next0, |ms|)
      invariant world.nextId == next0 + |ms|
    {
      var c := collectibles[i];
      MarkersExtend(collectibles, i);
      if !c.collected {
        SpawnNext(world, ents0, order0, next0, ms, CollectibleMarkerAt(c.position));
        ms := ms + [CollectibleMarkerAt(c.position)];
      }
      i := i + 1;
    }
    assert collectibles[..i] == collectibles;
  }

  /** The marker `spawn_goal_marker` creates. */
  function GoalMarkerAt(pos: Vec2): (e: Entity)
    ensures e.goalMarker && !e.collectibleMarker && e.transform == Some(NewTransform(pos))
    ensures e.sprite == Some(NewSprite(Vec2(64.0, 64.0), Color(50, 255, 50, 200)))
  {
    Bare.(goalMarker := true, transform := Some(NewTransform(pos)),
          sprite := Some(NewSprite(Vec2(64.0, 64.0), Color(50, 255, 50, 200))))
  }

  /** `spawn_goal_marker`: one marker at the goal when the level has one,
      nothing otherwise. */
  method SpawnGoalMarker(world: World, lm: LevelManager)
    requires world.Valid() && lm.Valid()
    modifies world
    ensures world.Valid()
    ensures var goal := lm.levels[lm.currentLevelIndex].goalPosition;
            (goal.Some? ==> world.entities == old(world.entities)[old(world.nextId) := GoalMarkerAt(goal.value)] &&
                            world.order == old(world.order) + [old(world.nextId)]) &&
            (goal.None? ==> world.entities == old(world.entities) && world.order == old(world.order))
  {
    var level := lm.GetCurrentLevel();
    if level.goalPosition.Some? {
      var _ := world.Spawn(GoalMarkerAt(level.goalPosition.value));
    }
  }
}
