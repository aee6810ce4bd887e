/** The enemy spawner (systems/enemy_spawner.rs): a timer that releases one
    enemy per interval while the population is below a cap, with interval,
    cap and enemy strength scaled by the time played. The random draws are
    supplied by the caller as a `Draw`. */
module EnemySpawners {
  import opened Core
  import Physics
  import opened Enemies
  import opened Ecs

  /** The spawner's settings for the current difficulty level. */
  datatype Wave = Wave(interval: real, maxEnemies: nat, multiplier: real)

  /** The difficulty level after `t` seconds: one more level every 30
      seconds. */
  function Level(t: real): (l: int)
    ensures t >= 0.0 ==> l >= 0
    ensures l as real * 30.0 <= t < (l + 1) as real * 30.0
  {
    (t / 30.0).Floor
  }

  /** Lines 36-39: the interval shrinks by half a second per level down to
      1.5 seconds, the cap grows by two per level up to 20 (the saturating
      `as usize` cast sends a negative value to 0), and strength grows by 20%
      per level. */
  function WaveAt(t: real): (w: Wave)
    ensures w.interval == Max(5.0 - Level(t) as real * 0.5, 1.5)
    ensures w.maxEnemies == CastUsize(Min(10.0 + Level(t) as real * 2.0, 20.0))
    ensures w.multiplier == 1.0 + Level(t) as real * 0.2
  {
    var l := Level(t) as real;
    Wave(Max(5.0 - l * 0.5, 1.5), CastUsize(Min(10.0 + l * 2.0, 20.0)), 1.0 + l * 0.2)
  }

  /** From the start of play the settings stay within their bounds, and the
      game only gets harder: a later time never has a longer interval, a
      lower cap or weaker enemies. */
  lemma {:induction false} WavesGetHarder(t: real, u: real)
    requires 0.0 <= t <= u
    ensures 1.5 <= WaveAt(t).interval <= 5.0 && 10 <= WaveAt(t).maxEnemies <= 20 && WaveAt(t).multiplier >= 1.0
    ensures WaveAt(u).interval <= WaveAt(t).interval
    ensures WaveAt(t).maxEnemies <= WaveAt(u).maxEnemies
    ensures WaveAt(t).multiplier <= WaveAt(u).multiplier
  {
    var l, m := Level(t), Level(u);
    assert l <= m;
    var a, b := Min(10.0 + l as real * 2.0, 20.0), Min(10.0 + m as real * 2.0, 20.0);
    assert 10.0 <= a <= b <= 20.0;
    assert CastUsize(a) <= CastUsize(b) by {
      assert (CastUsize(a) as real) <= a <= b < CastUsize(b) as real + 1.0;
    }
    assert 10 <= CastUsize(a) && CastUsize(b) <= 20;
  }

  /** What `thread_rng` would draw for one spawn: the spawn point, the x
      jitter, the size factor and the colour. */
  datatype Draw = Draw(index: nat, offsetX: real, sizeVariation: real, red: u8, green: u8, blue: u8)

  /** The draw lies in the ranges `spawn_enemy` asks `gen_range` for. */
  predicate InRange(d: Draw, points: nat)
  {
    d.index < points && -50.0 <= d.offsetX < 50.0 && 0.9 <= d.sizeVariation < 1.1 &&
    200 <= d.red < 255 && 30 <= d.green < 80 && 30 <= d.blue < 80
  }

  /** The entity `spawn_enemy` creates. */
  function SpawnedEnemy(points: seq<Vec2>, multiplier: real, d: Draw): (e: Entity)
    requires d.index < |points|
    ensures e.enemy.Some? && e.mech.None? && e.enemyController == Some(NewController())
    ensures e.transform.Some? && e.transform.value.position == Vec2(points[d.index].x + d.offsetX, points[d.index].y)
  {
    var base := points[d.index];
    var en := NewEnemy();
    var en1 := en.(health := en.health * multiplier, maxHealth := en.maxHealth * multiplier,
                   damage := en.damage * multiplier);
    var size := en.size.Scale(d.sizeVariation);
    Bare.(enemy := Some(en1), transform := Some(NewTransform(Vec2(base.x + d.offsetX, base.y))),
          sprite := Some(NewSprite(size, Color(d.red, d.green, d.blue, 255))), body := Some(Physics.NewBody(1.0)),
          collider := Some(Physics.Box(size)), enemyController := Some(NewController()))
  }

  /** A spawned enemy has the default stats scaled by the multiplier, stands
      within 50 units left or right of the chosen spawn point at its height,
      is a unit-mass body, and is drawn and collided at the same size, 0.9 to
      1.1 times the default. */
  lemma {:induction false} SpawnedEnemyRules(points: seq<Vec2>, multiplier: real, d: Draw)
    requires InRange(d, |points|)
    ensures var e := SpawnedEnemy(points, multiplier, d);
            var p := points[d.index];
            e.enemy.value.health == 50.0 * multiplier && e.enemy.value.maxHealth == 50.0 * multiplier &&
            e.enemy.value.damage == 10.0 * multiplier &&
            p.x - 50.0 <= e.transform.value.position.x < p.x + 50.0 && e.transform.value.position.y == p.y &&
            e.body.value.mass == 1.0 &&
            e.sprite.value.size == e.collider.value.size &&
            28.8 <= e.sprite.value.size.x < 35.2 && 43.2 <= e.sprite.value.size.y < 52.8
  {
  }

  class EnemySpawner {
    var spawnTimer: real
    var spawnInterval: real
    var maxEnemies: nat
    var spawnPoints: seq<Vec2>
    var difficultyMultiplier: real
    var timeElapsed: real

    /** `EnemySpawner::new`: the settings of level 0 and both clocks at 0. */
    constructor (points: seq<Vec2>)
      ensures spawnTimer == 0.0 && timeElapsed == 0.0 && spawnPoints == points
      ensures Wave(spawnInterval, maxEnemies, difficultyMultiplier) == WaveAt(0.0)
      ensures spawnInterval == 5.0 && maxEnemies == 10 && difficultyMultiplier == 1.0
    {
      spawnTimer := 0.0;
      spawnInterval := 5.0;
      maxEnemies := 10;
      spawnPoints := points;
      difficultyMultiplier := 1.0;
      timeElapsed := 0.0;
      assert Level(0.0) == 0;
    }

    /** `get_spawn_wave_info`. */
    function GetSpawnWaveInfo(): (w: Wave)
      reads this
      ensures w.interval == spawnInterval && w.maxEnemies == maxEnemies && w.multiplier == difficultyMultiplier
    {
      Wave(spawnInterval, maxEnemies, difficultyMultiplier)
    }

    /** `spawn_enemy`. */
    method SpawnEnemy(world: World, d: Draw)
      requires world.Valid() && InRange(d, |spawnPoints|)
      modifies world
      ensures world.Valid()
      ensures world.entities == old(world.entities)[old(world.nextId) := SpawnedEnemy(spawnPoints, difficultyMultiplier, d)]
      ensures world.order == old(world.order) + [old(world.nextId)]
    {
      var _ := world.Spawn(SpawnedEnemy(spawnPoints, difficultyMultiplier, d));
    }

    /** `update`: both clocks advance by `dt` and the settings follow the
        time played; once the spawn timer reaches the interval it restarts
        at 0, and one enemy appears if there are fewer than the cap and a
        spawn point exists. Nothing else in the world changes. */
    method Update(world: World, dt: real, d: Draw)
      requires world.Valid()
      requires spawnPoints != [] ==> InRange(d, |spawnPoints|)
      modifies this, world
      ensures world.Valid() && spawnPoints == old(spawnPoints)
      ensures timeElapsed == old(timeElapsed) + dt
      ensures Wave(spawnInterval, maxEnemies, difficultyMultiplier) == WaveAt(timeElapsed)
      ensures var due := old(spawnTimer) + dt >= spawnInterval;
              var spawns := due && CountWhere(old(world.order), old(world.entities), HasEnemy) < maxEnemies &&
                            spawnPoints != [];
              spawnTimer == (if due then 0.0 else old(spawnTimer) + dt) &&
              (spawns ==> world.entities == old(world.entities)[old(world.nextId) :=
                                               SpawnedEnemy(spawnPoints, difficultyMultiplier, d)] &&
                          world.order == old(world.order) + [old(world.nextId)]) &&
              (!spawns ==> world.entities == old(world.entities) && world.order == old(world.order))
    {
      timeElapsed := timeElapsed + dt;
      spawnTimer := spawnTimer + dt;
      var wave := WaveAt(timeElapsed);
      spawnInterval, maxEnemies, difficultyMultiplier := wave.interval, wave.maxEnemies, wave.multiplier;
      if spawnTimer >= spawnInterval {
        spawnTimer := 0.0;
        SpawnIfRoom(world, d);
      }
    }

    /** Lines 45-50: one enemy spawns when there are fewer than the cap and
        a spawn point exists; otherwise the world is left as it is. */
    method SpawnIfRoom(world: World, d: Draw)
      requires world.Valid()
      requires spawnPoints != [] ==> InRange(d, |spawnPoints|)
      modifies world
      ensures world.Valid()
      ensures var spawns := CountWhere(old(world.order), old(world.entities), HasEnemy) < maxEnemies &&
                            spawnPoints != [];
              (spawns ==> world.entities == old(world.entities)[old(world.nextId) :=
                                               SpawnedEnemy(spawnPoints, difficultyMultiplier, d)] &&
                          world.order == old(world.order) + [old(world.nextId)]) &&
              (!spawns ==> world.entities == old(world.entities) && world.order == old(world.order))
    {
      var enemyCount := world.Count(HasEnemy);
      if enemyCount < maxEnemies && spawnPoints != [] {
        SpawnEnemy(world, d);
      }
    }
  }

  /** Spawning raises the enemy count by exactly one, so an update never
      takes the population past the cap it started under. */
  lemma {:induction false} SpawnKeepsCap(order: seq<EntityId>, ents: map<EntityId, Entity>, id: EntityId,
                                         points: seq<Vec2>, multiplier: real, d: Draw, cap: nat)
    requires id !in order && d.index < |points|
    requires CountWhere(order, ents, HasEnemy) < cap
    ensures CountWhere(order + [id], ents[id := SpawnedEnemy(points, multiplier, d)], HasEnemy) ==
            CountWhere(order, ents, HasEnemy) + 1 <= cap
  {
    CountAfterSpawn(order, ents, HasEnemy, id, SpawnedEnemy(points, multiplier, d));
  }
}
