# legend-of-legends gameplay core in Dafny

This project models the gameplay core of *legend-of-legends*, a 2-D side-scrolling
action game written in Rust on SDL2 and the `hecs` entity-component store, and
proves properties of that model. A player walks, jumps and air-jumps through a
tile level, shoots with a five-weapon inventory, can climb into a mech and drive it,
and fights enemies that aim with lead, fire and fall under gravity. An enemy spawner
sends harder waves as time passes. Levels have win conditions: defeat all enemies,
survive, collect items, defeat the boss, reach a goal, or compound and alternative
objectives. A level manager tracks progress through a list of levels. A day/night
clock, parallax render layers, a camera and a few UI widgets (progress bars, the
on-screen clock, the debug overlay, anchors and layout helpers) complete the core.

The model follows the program's own structure, one Dafny module per source file:

- Components (`Physics.RigidBody`, `Players.Player`, `Enemies.Enemy`, `Mechs.Mech`,
  `Weapons.Weapon`, `Projectiles.Projectile`, …) are value datatypes. Their
  `&mut self` methods become functions from the old value to the new one.
- The entity store is the class `Ecs.World`. It holds a map from entity id to
  components, the order in which queries visit entities, and the next fresh id.
  The systems (`PlayerSystems`, `EnemySystems`, `ProjectileSystem`, `MechMovement`,
  `MechTransformation`, `EnemySpawners`, `WinConditionSystem`) are methods with
  loops over that order. Each is proved equal to a specification function built
  from a per-entity step, and the properties are lemmas about those functions.
- Objects that the game owns and updates in place are classes with `modifies`
  clauses: `Input.InputState`, `Cameras.Camera`, `DayNightCycles.DayNightCycle`,
  `LevelManagers.LevelManager`, `EnemySpawners.EnemySpawner`,
  `Buildings.Destructible`, the progress bar, the clock widget and the debug overlay.
- `f32` is modelled as `real`. Rust's float-to-integer casts are written out as
  saturating truncations (`Core.CastUsize`, `Core.CastU32`, `Core.CastU8`).
  `{:.N}` formatting is modelled as rounding to N decimals with ties to even
  (`Formatting.FormatFixed`).
- Inputs the code takes from outside become parameters: random draws (the spawn
  point, its jitter and colour, the shot spread), the Euclidean length of a vector,
  the mouse position in world coordinates, the frame time and the list of levels.

## Model

| member | source | states |
|---|---|---|
| Physics.CheckCollision | src/engine/physics/collision.rs:11-54 | two boxes collide exactly when, on each axis, their centres are closer than half their summed sizes; two circles collide only when their radii sum to a positive value; the box/circle arms are the clamp-and-compare test of `BoxCircle` |
| Physics.ClosestPoint | src/engine/physics/collision.rs:40-49 | the point of a box nearest a circle's centre lies inside the box and keeps each coordinate of the centre that already falls inside the box's span |
| Physics.BoxBoxSymmetric | src/engine/physics/collision.rs:13-27 | two boxes collide in either argument order or in neither |
| Physics.CircleCollisionSymmetric | src/engine/physics/collision.rs:28-31 | two circles collide in either argument order or in neither |
| Physics.BoxCircleSymmetric | src/engine/physics/collision.rs:32-52 | the box-circle and circle-box cases decide the same collision |
| Physics.BoxCircleWithinBounds | src/engine/physics/collision.rs:32-52 | a circle that touches a box has a bounding square that overlaps the box |
| Physics.CentreInsideBoxCollides | src/engine/physics/collision.rs:40-52 | a circle whose centre lies inside a box always collides with it |
| Physics.NewBody | src/engine/physics/collision.rs:66-73 | a new body is at rest with no pending force, with the given mass and drag 0.1 |
| Physics.DefaultBody | src/engine/physics/collision.rs:86-90 | the default body has mass 1 and drag 0.1 |
| Physics.ApplyForce | src/engine/physics/collision.rs:75-77 | a force adds force / mass to the pending acceleration and changes nothing else |
| Physics.ForcesAccumulate | src/engine/physics/collision.rs:75-77 | two forces applied in turn give the acceleration of their sum |
| Physics.Integrate | src/engine/physics/collision.rs:79-83 | integration adds acceleration·dt to the velocity, applies the damping factor and clears the acceleration |
| Physics.IntegrateWithoutForce | src/engine/physics/collision.rs:79-83 | without a pending force only the damping changes the velocity, and a body at rest stays at rest |
| Physics.GravityPullsDown | src/engine/physics/collision.rs:66-83 | a body at rest under a downward force gains a downward velocity |
| Levels.NewTile | src/game/level.rs:25-41 | every tile type but Empty is solid; Empty is transparent and the others opaque |
| Levels.NewLevel | src/game/level.rs:65-87 | a new level is a width-by-height grid of empty tiles spawning at (100, 100) with no collectibles or goal |
| Levels.GetTile | src/game/level.rs:159-165 | a tile is returned exactly when both indices are in range, and it is the grid's tile at that row and column |
| Levels.CellIndex | src/game/level.rs:168-169 | a non-negative coordinate falls in the tile whose span contains it; a negative one saturates to cell 0 |
| Levels.GetTileAtPosition | src/game/level.rs:167-171 | a position inside the level finds the tile under it; a position past the right or bottom edge finds nothing |
| Levels.StartIndex | src/game/level.rs:174-176 | the first scanned index is the floor of coordinate / 32, saturated at 0 |
| Levels.EndIndex | src/game/level.rs:175-177 | the end of the scan is the ceiling of the far edge / 32, capped at the grid size |
| Levels.CheckCollision | src/game/level.rs:173-197 | the row-by-row scan reports a hit exactly when a solid tile in the clamped window overlaps the rectangle |
| Levels.HitInWindow | src/game/level.rs:173-189 | every solid tile that overlaps the rectangle lies inside the scanned index window |
| Levels.CollisionWindowIsExact | src/game/level.rs:173-197 | the scan collides exactly when some solid tile anywhere in the grid overlaps the rectangle |
| Levels.NoSolidNoCollision | src/game/level.rs:179-196 | a level without solid tiles never collides |
| Levels.Lines | src/game/level.rs:90 | splitting into lines leaves no line feed inside a line |
| Levels.LinesOfTerminated | src/game/level.rs:90 | splitting text made of lines each ending in a line feed gives back those lines |
| Levels.FirstLine | src/game/level.rs:90 | a line without line breaks followed by a line feed is split off as the first line and the rest is split on its own |
| Levels.Utf8Len | src/game/level.rs:92 | a line's byte length lies between its character count and four times it |
| Levels.MaxWidth | src/game/level.rs:92 | the width is the byte length of the longest line, or 0 without lines |
| Levels.CharTile | src/game/level.rs:100-114 | '#', '=', '|' and 'D' map to ground, platform, wall and destructible, each exactly; every other character is empty |
| Levels.LastS | src/game/level.rs:109-111 | the index found holds 'S' and no later character of the line does, or the line has no 'S' |
| Levels.RowSpawnIsLast | src/game/level.rs:98-117 | scanning one row leaves the spawn point at that row's last 'S', or unchanged |
| Levels.SpawnIsLastS | src/game/level.rs:95-117 | the spawn point is (x·32, y·32) for the last 'S' in row-major order, or (100, 100) when there is none |
| Levels.FromString | src/game/level.rs:89-157 | the parsed level has one row per line, the longest line's width, each cell's tile from its character, the last 'S' as spawn and the custom-level metadata |
| Levels.ScanRows | src/game/level.rs:94-117 | every line becomes its grid row, padded to the level width, and the spawn point ends at the last 'S' in row-major order |
| Levels.GridRow | src/game/level.rs:94 | a grid row is exactly `width` tiles, each from the character at its column or empty past the end of the line |
| Levels.ScanRow | src/game/level.rs:99-116 | a scanned row holds each character's tile, is padded with empty tiles to the level width, and leaves the spawn point at the row's last 'S' |
| Levels.GroundYAsWritten | src/game/level.rs:124 | the ground height as written has a value exactly when the level has at least three rows |
| Levels.ShortLevelOverflows | src/game/level.rs:124 | the two-line level "S\n##" hits the subtraction overflow |
| Levels.GroundY | src/game/level.rs:123-124 | the corrected ground line is defined for every height, lies within the level, sits three rows above the bottom for levels of at least three rows and at the top otherwise |
| Levels.GroundYAgrees | src/game/level.rs:124 | the corrected ground line agrees with the written one wherever the written one does not overflow |
| Input.InputState.constructor | src/engine/platform/input.rs:21-35 | nothing is held or pressed and the mouse is at the origin |
| Input.InputState.Update | src/engine/platform/input.rs:37-45 | the pressed and released sets are cleared, held keys stay, and the mouse delta is the motion since the last frame |
| Input.InputState.HandleKeyDown | src/engine/platform/input.rs:47-52 | the key is held afterwards and is reported pressed only when it was not held before |
| Input.InputState.HandleKeyUp | src/engine/platform/input.rs:54-57 | the key is no longer held and is reported released |
| Input.InputState.HandleMouseDown | src/engine/platform/input.rs:59-65 | the mouse moves to the event position; the button is held and is reported pressed only on its up-to-down edge |
| Input.InputState.HandleMouseUp | src/engine/platform/input.rs:67-71 | the mouse moves to the event position; the button is released and no longer held |
| Input.InputState.HandleMouseMotion | src/engine/platform/input.rs:73-75 | only the mouse position changes |
| Input.HeldKeyPressedOnce | src/engine/platform/input.rs:37-52 | a key held down across two frames is reported pressed in the first frame only |
| Cameras.ZoomStep | src/engine/rendering/camera.rs:24-29 | inside the 0.01 dead band the zoom stays put; outside it moves by (target − zoom)·speed·dt |
| Cameras.ZoomApproachesTarget | src/engine/rendering/camera.rs:24-29 | with 0 ≤ speed·dt ≤ 1 a step never overshoots the target and never widens the gap, and a positive zoom stays positive |
| Cameras.Snap | src/engine/rendering/camera.rs:57-61 | the snapped coordinate falls on a whole pixel at the given zoom and lies within half a pixel of the exact one |
| Cameras.Camera.constructor | src/engine/rendering/camera.rs:13-22 | a new camera sits at the origin with zoom 1, zoom speed 2 and pixel snapping on |
| Cameras.Camera.Update | src/engine/rendering/camera.rs:24-29 | the zoom takes one easing step toward the target and nothing else changes |
| Cameras.Camera.SetZoom | src/engine/rendering/camera.rs:31-33 | the target zoom is the request clamped to [0.1, 5] and the current zoom is untouched |
| Cameras.CentreMapsToViewportCentre | src/engine/rendering/camera.rs:35-45 | the camera's own position shows at the viewport centre, rounded to whole pixels when snapping is on |
| Cameras.Camera.WorldToScreen | src/engine/rendering/camera.rs:35-45 | without snapping the exact zoomed, viewport-centred position; with snapping the same rounded to whole pixels, each within half a pixel |
| Cameras.Camera.ScreenToWorld | src/engine/rendering/camera.rs:47-50 | the world point returned is the one the exact mapping sends to the given screen point |
| Cameras.Camera.Follow | src/engine/rendering/camera.rs:52-65 | the camera moves a smoothing·dt fraction of the way to the target, snapped to whole pixels when snapping is on; the zoom is untouched |
| Cameras.ConversionsRoundTrip | src/engine/rendering/camera.rs:35-50 | without snapping the two conversions are inverse to each other in both directions |
| Cameras.SnappedRoundTripIsClose | src/engine/rendering/camera.rs:35-50 | with snapping a world-screen-world round trip lands within half a pixel divided by the zoom on each axis |
| Weapons.MakeWeapon | src/systems/weapons/mod.rs:33-131 | only the pistol has unlimited ammunition, only the shotgun fires more than one projectile, only rockets and plasma explode, only lasers and plasma pierce, and every weapon starts with a full magazine |
| Weapons.Cooldown | src/systems/weapons/mod.rs:133-135 | the cooldown is positive and is the reciprocal of the fire rate |
| Weapons.ConsumeAmmo | src/systems/weapons/mod.rs:137-148 | unlimited ammunition always fires; a loaded magazine fires and loses one round; an empty one refuses and is unchanged |
| Weapons.Reload | src/systems/weapons/mod.rs:150-154 | a weapon with a magazine size is refilled to it; one without is unchanged |
| Weapons.MagazineEmptiesAfterCapacity | src/systems/weapons/mod.rs:137-154 | a full magazine of n rounds fires exactly n times, then refuses, and a reload restores the starting weapon |
| Weapons.NewInventory | src/systems/weapons/mod.rs:164-175 | the inventory holds the five weapons in catalogue order, pistol selected |
| Weapons.CurrentWeapon | src/systems/weapons/mod.rs:177-179 | the current weapon is one of the inventory's weapons |
| Weapons.SetCurrentWeapon | src/systems/weapons/mod.rs:181-183 | writing through the current-weapon reference replaces that weapon only |
| Weapons.SwitchWeapon | src/systems/weapons/mod.rs:185-189 | an index in range becomes the selection; any other index changes nothing |
| Weapons.NextWeapon | src/systems/weapons/mod.rs:191-193 | the selection advances by one and wraps to the first weapon |
| Weapons.PreviousWeapon | src/systems/weapons/mod.rs:195-201 | the selection goes back by one and wraps from the first weapon to the last |
| Weapons.NextPreviousInverse | src/systems/weapons/mod.rs:191-201 | next and previous undo each other in both orders |
| Weapons.NextTimesCompose | src/systems/weapons/mod.rs:191-193 | advancing a times and then b times is advancing a + b times |
| Weapons.NextTimesCountsUp | src/systems/weapons/mod.rs:191-193 | advancing n times from the selection without passing the end adds n to the index |
| Weapons.FullRoundTrip | src/systems/weapons/mod.rs:191-193 | advancing once per weapon comes back to the starting selection |
| Projectiles.NewProjectile | src/systems/projectile/mod.rs:33-47 | a plain projectile carries the given damage and owner, is fresh, lives five seconds, falls at full gravity and neither explodes, pierces nor trails |
| Projectiles.FromWeapon | src/systems/projectile/mod.rs:49-67 | a fired projectile copies damage, lifetime, size, colour, gravity, explosion and pierce from its weapon and trails exactly for rockets, lasers and plasma |
| Projectiles.Age | src/systems/projectile/mod.rs:107 | ageing adds dt to the lifetime and changes nothing else |
| Projectiles.CatalogShotsStartAlive | src/systems/projectile/mod.rs:49-71 | a projectile fired by any catalogue weapon starts unexpired, and only pistol and shotgun shots lack a trail |
| Projectiles.AgeingIsMonotone | src/systems/projectile/mod.rs:107-109 | once expired a projectile stays expired, and after ageing it is expired exactly when lifetime + dt reaches its maximum |
| Projectiles.AgeTimesAdds | src/systems/projectile/mod.rs:107 | n frames of dt add n·dt to the lifetime |
| Enemies.NewEnemy | src/systems/enemy/mod.rs:20-32 | a new enemy has the 32×48 body, 50 health, range 600, a two-second cooldown and is ready to shoot |
| Enemies.ResetShootTimer | src/systems/enemy/mod.rs:38-40 | the timer is set to the cooldown, after which a positive cooldown blocks shooting |
| Enemies.UpdateTimer | src/systems/enemy/mod.rs:42-46 | a running timer counts down by dt; an expired one is left alone |
| Enemies.ShowHealthBar | src/systems/enemy/mod.rs:48-50 | the health bar is shown for three seconds |
| Enemies.UpdateHealthBarTimer | src/systems/enemy/mod.rs:52-56 | a running bar timer counts down by dt; an expired one is left alone |
| Enemies.ShootTimerRunsOut | src/systems/enemy/mod.rs:34-46 | a ready enemy stays ready, a timer not longer than dt expires, and a blocked enemy's timer strictly falls while time passes |
| Enemies.HealthBarFades | src/systems/enemy/mod.rs:52-60 | a hidden bar stays hidden, a bar with more than dt left stays shown, and the timers never touch health |
| Enemies.NewController | src/systems/enemy/mod.rs:78-84 | a new controller is idle, without a target, facing left |
| Enemies.AimPoint | src/systems/enemy/mod.rs:91-100 | without a velocity, or with a speed of at most 10, the aim is the player's position |
| Enemies.LeadIsHalfFlightTime | src/systems/enemy/mod.rs:94-99 | when leading, the aim is ahead of the player by the velocity times half the projectile's flight time |
| Enemies.UpdateTarget | src/systems/enemy/mod.rs:86-113 | within range the controller targets the aim point and faces the normalised direction to it whenever that direction is non-zero (so it turns toward an aim point away from it), keeping its facing otherwise; out of range it goes idle, drops the target and keeps its facing |
| Enemies.ShootDirection | src/systems/enemy/mod.rs:115-117 | the shot goes where the controller faces |
| Enemies.UpdateTargetIdempotentOutOfRange | src/systems/enemy/mod.rs:109-112 | out of range a second update changes nothing |
| Players.NewPlayer | src/systems/player/mod.rs:21-29 | a new player has the 24×40 body and full health and energy of 100 |
| Players.RatedAfterSet | src/systems/player/mod.rs:67-69 | writing back a weapon with a positive fire rate keeps every weapon's fire rate positive |
| Players.NewPlayerController | src/systems/player/mod.rs:47-61 | a new controller is airborne with no jumps used, two jumps allowed, not spinning, ready to shoot, with the starting inventory |
| Players.ResetShootTimer | src/systems/player/mod.rs:67-69 | the shot timer is set to the current weapon's cooldown, which blocks the next shot |
| Players.UpdateTimer | src/systems/player/mod.rs:71-75 | a running timer counts down by dt; an expired one is left alone |
| Players.ShotTimerMatchesFireRate | src/systems/player/mod.rs:63-75 | after a shot, one frame at least a cooldown long makes the player ready again |
| Mechs.NewMech | src/systems/mech/mod.rs:19-32 | a new mech is empty and pilotless, with 500 health and 200 energy, both full |
| Mechs.TakeDamage | src/systems/mech/mod.rs:34-36 | health drops by the amount but never below zero, and nothing else changes |
| Mechs.UseEnergy | src/systems/mech/mod.rs:38-45 | the payment succeeds exactly when there is enough energy, and then only the energy drops by the amount; otherwise nothing changes |
| Mechs.RegenerateEnergy | src/systems/mech/mod.rs:47-50 | energy grows by amount·dt but never past the maximum |
| Mechs.GetColor | src/systems/mech/mod.rs:60-68 | a piloted mech is drawn bright blue, an empty one grey |
| Mechs.EnergyStaysInRange | src/systems/mech/mod.rs:38-50 | paying and regenerating keep energy within [0, maximum] |
| Mechs.DamageAccumulates | src/systems/mech/mod.rs:34-54 | two hits equal one hit of their sum, and a destroyed mech stays destroyed |
| Mechs.NewMechController | src/systems/mech/mod.rs:80-87 | a new controller is not boosting and every cooldown is zero |
| Mechs.UpdateController | src/systems/mech/mod.rs:89-93 | every cooldown drops by dt, never below zero |
| Mechs.DoStomp | src/systems/mech/mod.rs:99-101 | a stomp sets a two-second cooldown, which blocks the next stomp |
| Mechs.StompRecharges | src/systems/mech/mod.rs:89-101 | after a stomp, the stomp is available again exactly when at least two seconds pass |
| MechWeapons.MakeMechWeapon | src/systems/mech/weapons.rs:27-77 | every mech weapon has a positive fire rate and damage, and only the railgun has no splash radius |
| MechWeapons.CooldownTime | src/systems/mech/weapons.rs:79-81 | the cooldown is positive and is the reciprocal of the fire rate |
| MechWeapons.ToProjectile | src/systems/mech/weapons.rs:83-92 | a mech shot is player-owned, carries the weapon's damage, size and colour, lives three seconds and explodes with the splash radius when there is one |
| MechWeapons.ExplodingShots | src/systems/mech/weapons.rs:27-92 | every mech weapon's shot but the railgun's explodes, and every shot starts unexpired |
| MechWeapons.NewMechWeaponInventory | src/systems/mech/weapons.rs:103-110 | the plasma cannon is primary, the missile launcher secondary, and both are ready |
| MechWeapons.UpdateWeapons | src/systems/mech/weapons.rs:112-115 | both cooldowns drop by dt, never below zero, and the weapons stay |
| MechWeapons.FirePrimary | src/systems/mech/weapons.rs:125-127 | firing sets the primary cooldown to its weapon's cooldown time, which blocks the next primary shot |
| MechWeapons.FireSecondary | src/systems/mech/weapons.rs:129-131 | firing sets the secondary cooldown to its weapon's cooldown time, which blocks the next secondary shot |
| MechWeapons.CooldownsAreIndependent | src/systems/mech/weapons.rs:112-131 | firing one weapon leaves the other's readiness alone, and the primary is ready again exactly after its cooldown time |
| AxisMove.Commit | src/systems/player/mod.rs:155-183 | a blocked axis keeps its coordinate and loses that velocity component; a free axis moves by velocity·dt and keeps its velocity |
| AxisMove.ResolveAxes | src/systems/player/mod.rs:145-183 | the two tile scans give the outcome of testing the horizontal move first and then the vertical move at the resulting x |
| AxisMove.NeverEntersWalls | src/systems/player/mod.rs:145-183 | a body whose box is clear of solid tiles ends the step in a clear box |
| AxisMove.OpenLevelMovesFreely | src/systems/enemy/mod.rs:191-220 | in a level without solid tiles the body moves by velocity·dt, keeps its velocity and is never blocked |
| PlayerSystems.HorizontalInput | src/systems/player/mod.rs:96-103 | the intent is −1, 0 or 1: left exactly when only a left key is held, right exactly when only a right key is held |
| PlayerSystems.Jump | src/systems/player/mod.rs:106-123 | a press on the ground jumps with the jump force and uses one jump; in the air with a jump left and 20 energy it double-jumps, spends the energy and starts a spin; otherwise nothing changes |
| PlayerSystems.Walk | src/systems/player/mod.rs:125-126 | the horizontal velocity is the intent times the speed and nothing else changes |
| PlayerSystems.StopSpin | src/systems/player/mod.rs:176-180 | a running spin is ended and the sprite put upright; without a spin nothing changes |
| PlayerSystems.Spin | src/systems/player/mod.rs:128-139 | a running spin advances, shows its angle as the sprite's rotation and ends at a full turn, so the angle stays below 360 |
| PlayerSystems.Land | src/systems/player/mod.rs:168-183 | a free vertical move leaves the player airborne; a blocked fall grounds it, resets its jumps and ends its spin; a blocked rise changes only the motion |
| PlayerSystems.Settle | src/systems/player/mod.rs:185-205 | standing on ground while not rising grounds the player, resets the jumps, ends the spin and regenerates energy up to the maximum; otherwise nothing changes |
| PlayerSystems.Propel | src/systems/player/mod.rs:96-143 | input, spin and physics keep the position, size, jump allowance, inventory and mass |
| PlayerSystems.MovePlayer | src/systems/player/mod.rs:90-206 | one player's movement frame is jump, walk, spin, gravity, integration, axis resolution, landing and settling in the source's order |
| PlayerSystems.PropelKeepsSteady | src/systems/player/mod.rs:96-143 | the pre-collision phases keep energy in range, a grounded player unspun with no jump used, and the spin angle below a full turn |
| PlayerSystems.MoveKeepsSteady | src/systems/player/mod.rs:90-206 | a whole movement frame keeps the same invariant |
| PlayerSystems.LandKeepsSteady | src/systems/player/mod.rs:168-183 | landing on or leaving the ground keeps the controller invariant |
| PlayerSystems.SettleKeepsSteady | src/systems/player/mod.rs:185-205 | settling on the ground keeps the controller invariant and the energy within its bounds |
| PlayerSystems.MoveNeverEntersWalls | src/systems/player/mod.rs:145-183 | a player whose box is clear of solid tiles is still clear after the frame |
| PlayerSystems.AirJumpsAreLimited | src/systems/player/mod.rs:110-122 | airborne with every jump used or under 20 energy, a jump press does nothing; an air jump uses one jump and exactly 20 energy and spins |
| PlayerSystems.Navigate | src/systems/player/mod.rs:224-244 | number keys, Q and E change only the selection and keep it in range |
| PlayerSystems.SelectWeapon | src/systems/player/mod.rs:224-247 | only the selected weapon can change, and only R reloads it |
| PlayerSystems.SelectionKeys | src/systems/player/mod.rs:224-238 | among the number keys pressed in one frame the highest slot wins |
| PlayerSystems.PreviousThenNextCancel | src/systems/player/mod.rs:239-244 | Q and E pressed in the same frame cancel out |
| PlayerSystems.Volley | src/systems/player/mod.rs:264-284 | a volley holds one shot per projectile, each along the base direction turned by its spread angle and starting 25 units out |
| PlayerSystems.FireVolley | src/systems/player/mod.rs:264-284 | the loop produces the volley of the weapon's projectile count |
| PlayerSystems.ShootStep | src/systems/player/mod.rs:221-298 | a shooting frame keeps the controller valid |
| PlayerSystems.ShootingRules | src/systems/player/mod.rs:221-298 | shots leave only with the button held and the timer run out; a volley costs one round, carries the weapon, and resets the timer to the cooldown; an empty magazine fires nothing; without the button only the timer and selection change |
| PlayerSystems.WithRig | src/systems/player/mod.rs:90-95 | writing the movement components back keeps the entity's other components |
| PlayerSystems.Moved | src/systems/player/mod.rs:90-95 | the movement system leaves mechs untouched |
| PlayerSystems.PlayerMovementSystem | src/systems/player/mod.rs:84-207 | every entity takes exactly its movement step and no entity appears or disappears |
| PlayerSystems.ShootEntity | src/systems/player/mod.rs:218-220 | an entity without the shooting components is skipped; a shooter keeps its transform and a valid controller |
| PlayerSystems.PlayerShootingSystem | src/systems/player/mod.rs:209-309 | every entity takes exactly its shooting step, aiming at the cursor in world coordinates, and the spawn requests are every volley in query order |
| PlayerSystems.RequestsAreVolleys | src/systems/player/mod.rs:218-300 | with the shooting step as the per-entity step, the requests collected are exactly every shooter's volley in query order |
| EnemySystems.Fire | src/systems/enemy/mod.rs:152-168 | an enemy fires exactly when it is targeting and its timer has run out; the shot leaves along the facing direction from just outside the enemy with its speed and damage, the timer restarts and the state becomes Shooting; otherwise a non-targeting enemy turns idle |
| EnemySystems.Think | src/systems/enemy/mod.rs:141-168 | an AI frame never changes an enemy's health, size or projectile speed |
| EnemySystems.ThinkIsFireAfterRetarget | src/systems/enemy/mod.rs:141-150 | the timers tick and the target is updated before the fire decision, and ticking touches nothing but the timers |
| EnemySystems.FiringRules | src/systems/enemy/mod.rs:141-168 | an enemy fires exactly when the player is in range and the shot timer has run out; firing restarts the timer and enters Shooting; in range without firing it keeps targeting; out of range it is idle, without a target, keeping its facing |
| EnemySystems.Thought | src/systems/enemy/mod.rs:136-140 | an entity without the AI components is untouched and mechs are never changed |
| EnemySystems.AtMostOneShotEach | src/systems/enemy/mod.rs:136-169 | a frame asks for at most one shot per enemy, and only enemies shoot |
| EnemySystems.EnemyAiSystem | src/systems/enemy/mod.rs:120-173 | without a player nothing changes and no shot is asked for; otherwise every entity takes its AI step against the first player's position and velocity and the shots come back in query order |
| EnemySystems.RequestsAreShots | src/systems/enemy/mod.rs:136-168 | with the AI step as the per-entity step, the requests collected are exactly the enemies' shots in query order |
| EnemySystems.FallingStaysOutOfWalls | src/systems/enemy/mod.rs:187-220 | an enemy whose box is clear of solid tiles is still clear after falling |
| EnemySystems.Fallen | src/systems/enemy/mod.rs:180-186 | the physics system leaves mechs untouched |
| EnemySystems.FallOne | src/systems/enemy/mod.rs:187-220 | one enemy's physics step as performed equals its specification |
| EnemySystems.EnemyPhysicsSystem | src/systems/enemy/mod.rs:175-222 | every entity takes exactly its physics step and no entity appears or disappears |
| ProjectileSystem.PlayerSnapshot | src/systems/projectile/mod.rs:85-92 | there is no snapshot exactly when no entity of the query has both a player and a transform |
| ProjectileSystem.Targets | src/systems/projectile/mod.rs:95-101 | one target per enemy with a transform, in query order, each recording that enemy's id, position and size |
| ProjectileSystem.TargetsExtend | src/systems/projectile/mod.rs:96-101 | the target list grows by one entry exactly for each enemy met |
| ProjectileSystem.SnapshotEnemies | src/systems/projectile/mod.rs:94-101 | the loop collects exactly the targets |
| ProjectileSystem.StruckCount | src/systems/projectile/mod.rs:191-200 | no more enemies are struck than there are targets |
| ProjectileSystem.Scan | src/systems/projectile/mod.rs:191-217 | every hit carries the projectile and its damage and names an enemy the box overlaps; each hit but the last spends one pierce, so at most pierce + 1 hits are recorded |
| ProjectileSystem.ScanCount | src/systems/projectile/mod.rs:191-217 | every overlapped enemy is hit while the pierce lasts; otherwise exactly pierce + 1 are hit, and the unspent pierce is what is left over |
| ProjectileSystem.ScanTargets | src/systems/projectile/mod.rs:191-217 | the loop with its early exit records exactly the scan's hits and remaining pierce |
| ProjectileSystem.Pushed | src/systems/projectile/mod.rs:115-117 | gravity and integration keep the mass and drag and leave no pending acceleration |
| ProjectileSystem.FlightRules | src/systems/projectile/mod.rs:107-218 | a tick ages the projectile; an expired one is listed without moving; a wall stop is listed, keeps its place and hits nothing; otherwise it moves by its velocity; enemy shots hit only the player, at most once; player shots hit only enemies, at most pierce + 1; every hit carries the projectile's damage |
| ProjectileSystem.FlyOne | src/systems/projectile/mod.rs:107-218 | one projectile's tick as performed equals its specification |
| ProjectileSystem.Apply | src/systems/projectile/mod.rs:104-106 | the tick writes back the projectile's three components and nothing else |
| ProjectileSystem.Record | src/systems/projectile/mod.rs:110-200 | the tally gains the tick's hits and, when it expired, the projectile |
| ProjectileSystem.Flown | src/systems/projectile/mod.rs:104-106 | entities without the projectile components are untouched |
| ProjectileSystem.FlownAll | src/systems/projectile/mod.rs:104-219 | the loop neither adds nor removes entities |
| ProjectileSystem.TalliedExtend | src/systems/projectile/mod.rs:104-219 | the tally grows by each entity's tick in query order |
| ProjectileSystem.TallyRules | src/systems/projectile/mod.rs:104-219 | only projectiles are listed; every player hit comes from an enemy-owned projectile and every enemy hit from a player-owned one, each with that projectile's damage |
| ProjectileSystem.FlyEntity | src/systems/projectile/mod.rs:104-219 | one loop turn moves exactly the current entity and extends the tally by its tick |
| ProjectileSystem.FlyAll | src/systems/projectile/mod.rs:104-219 | every entity takes its tick and the tally is the whole query's |
| ProjectileSystem.MoveProjectiles | src/systems/projectile/mod.rs:104-219 | the projectile loop on the world performs exactly those ticks and returns the tally |
| ProjectileSystem.Drained | src/systems/projectile/mod.rs:224-232 | health after clamped hits is never negative and, with non-negative damages, never grows |
| ProjectileSystem.DrainedIsClampedTotal | src/systems/projectile/mod.rs:224-232 | with non-negative damages, clamping after every hit equals clamping once after the total |
| ProjectileSystem.Hurt | src/systems/projectile/mod.rs:223-225 | a player loses the damage, floored at zero, and nothing else changes |
| ProjectileSystem.PlayerAfter | src/systems/projectile/mod.rs:222-227 | entities without a player and an empty damage list leave the entity unchanged |
| ProjectileSystem.PlayersAfter | src/systems/projectile/mod.rs:222-227 | applying player damage neither adds nor removes entities |
| ProjectileSystem.HurtPlayers | src/systems/projectile/mod.rs:222-227 | every player takes every player hit's damage in turn, and each hit's projectile is listed |
| ProjectileSystem.HurtEach | src/systems/projectile/mod.rs:223-225 | for one hit, every entity takes the damage once and no entity is added or removed |
| ProjectileSystem.Strike | src/systems/projectile/mod.rs:231-233 | the enemy loses the damage, floored at zero, and shows its health bar; nothing else changes |
| ProjectileSystem.StrikeAll | src/systems/projectile/mod.rs:230-236 | enemy hits change only enemies, and hits on missing entities are skipped |
| ProjectileSystem.StrikeAllDrains | src/systems/projectile/mod.rs:230-236 | each enemy's health afterwards is its health drained by exactly the damages aimed at it, in order |
| ProjectileSystem.HurtEnemies | src/systems/projectile/mod.rs:230-236 | every enemy hit is applied in order and its projectile listed |
| ProjectileSystem.CollectDead | src/systems/projectile/mod.rs:239-244 | exactly the enemies with health at most zero are collected |
| ProjectileSystem.DespawnAll | src/systems/projectile/mod.rs:245-247 | the listed entities are gone from the world and its query order, and all others stay |
| ProjectileSystem.RemoveDead | src/systems/projectile/mod.rs:238-247 | exactly the dead enemies leave the world |
| ProjectileSystem.SnapshotPlayer | src/systems/projectile/mod.rs:85-92 | the loop finds the first player's position and size |
| ProjectileSystem.Damaged | src/systems/projectile/mod.rs:221-236 | applying damage neither adds nor removes entities |
| ProjectileSystem.RunProjectileSystem | src/systems/projectile/mod.rs:74-250 | the world after the ticks, the damage and the removal of the dead enemies, and the removal list: expired and wall-stopped projectiles, then one entry per player hit, then one per enemy hit |
| ProjectileSystem.SurvivorsWereDrained | src/systems/projectile/mod.rs:230-247 | an enemy survives the system exactly when its health exceeds the sum of the damages aimed at it |
| MechTransformation.Recolour | src/systems/mech/transformation.rs:51-53 | a mech that has a sprite gets the colour for its occupancy; one without stays without |
| MechTransformation.Enter | src/systems/mech/transformation.rs:15-66 | entering succeeds exactly when the mech entity exists, has a mech, is free and the player has a transform; a refusal changes nothing, and no entity appears or disappears |
| MechTransformation.EnterRules | src/systems/mech/transformation.rs:45-58 | after a successful enter the mech is occupied by the player and shows the active colour; the player keeps its transform and body but loses sprite and collider; no other entity changes |
| MechTransformation.Exit | src/systems/mech/transformation.rs:68-129 | leaving succeeds exactly when the mech entity exists, has a mech and is occupied; a refusal changes nothing, and no entity appears or disappears |
| MechTransformation.ExitRules | src/systems/mech/transformation.rs:95-121 | after a successful exit the mech is free and grey; the pilot gets back its 24×40 sprite and collider and stands 60 units right of the mech; no other entity changes |
| MechTransformation.EnterThenExit | src/systems/mech/transformation.rs:15-129 | entering and then leaving a free mech both succeed and give the mech back as it was, with the pilot on foot again |
| MechTransformation.EnterMech | src/systems/mech/transformation.rs:15-66 | enter_mech on the world does exactly what Enter specifies |
| MechTransformation.ExitMech | src/systems/mech/transformation.rs:68-129 | exit_mech on the world does exactly what Exit specifies |
| MechTransformation.Nearest | src/systems/mech/transformation.rs:131-148 | the best distance never exceeds the limit; a mech found is a free mech of the query at exactly that distance |
| MechTransformation.NearestIsNearest | src/systems/mech/transformation.rs:131-148 | a mech is found only closer than the limit; no free mech is closer than the one found, and none earlier in the query is as close |
| MechTransformation.NearestExtend | src/systems/mech/transformation.rs:135-145 | each loop turn replaces the best only with a strictly closer free mech |
| MechTransformation.FindNearestMech | src/systems/mech/transformation.rs:131-148 | the loop returns the nearest free mech |
| MechTransformation.MechEntity | src/systems/mech/transformation.rs:150-164 | a spawned mech is new, free, grey, with a mass of 10 and a box collider of its size |
| MechTransformation.SpawnMech | src/systems/mech/transformation.rs:150-164 | the new entity gets a fresh id and is added at the end of the query order; nothing else changes |
| MechMovement.MoveDir | src/systems/mech/movement.rs:31-37 | the direction is −1, 0 or 1; right wins whenever a right key is held, and left needs a left key without a right one |
| MechMovement.Recharge | src/systems/mech/movement.rs:23-28 | the cooldowns run down, and energy regenerates at 30 per second only when the mech was not boosting |
| MechMovement.MechStep | src/systems/mech/movement.rs:19-103 | a tick never changes who pilots the mech |
| MechMovement.ChargeMech | src/systems/mech/movement.rs:23-28 | the cooldown and regeneration stage as performed equals its specification |
| MechMovement.SteerMech | src/systems/mech/movement.rs:30-51 | the steering and boost stage as performed equals its specification |
| MechMovement.LeapMech | src/systems/mech/movement.rs:53-89 | the ground probe, jump, gravity and stomp stage as performed equals its specification |
| MechMovement.AdvanceMech | src/systems/mech/movement.rs:91-103 | the move and clamp stage as performed equals its specification |
| MechMovement.MoveMech | src/systems/mech/movement.rs:19-103 | one piloted mech's tick as performed, stage by stage, equals its specification |
| MechMovement.SteeringRules | src/systems/mech/movement.rs:39-51 | the mech boosts exactly when shift is held, it can boost after recharging and a direction is held; the horizontal velocity is the direction times the boost or normal speed |
| MechMovement.EnergyRules | src/systems/mech/movement.rs:25-48 | energy regenerates only when the mech was not boosting; a boost pays 20·dt when there is enough; energy in [0, maximum] stays there |
| MechMovement.VerticalRules | src/systems/mech/movement.rs:53-89 | a stomp in the air slams down at 1500 and starts the stomp cooldown; otherwise a jump from the ground uses the jump power, the air adds 2000 per second and the ground cancels any downward speed |
| MechMovement.BoundsRules | src/systems/mech/movement.rs:91-103 | the mech stays within the level's horizontal bounds and never goes below the floor line three rows up; only a mech pushed onto the floor loses its vertical speed |
| MechMovement.WithSuit | src/systems/mech/movement.rs:16-18 | writing the four components back keeps the entity's others |
| MechMovement.Driven | src/systems/mech/movement.rs:16-21 | an unmanned mech and every non-mech entity is untouched, and occupancy never changes |
| MechMovement.MechMovementSystem | src/systems/mech/movement.rs:10-105 | every entity takes exactly its step and no entity appears or disappears |
| Ecs.CountWhere | src/systems/enemy_spawner.rs:46 | a query count never exceeds the number of ids and is zero exactly when no live entity matches |
| Ecs.FirstWhere | src/systems/enemy/mod.rs:127-133 | the first match is a live matching entity with no match before it, and there is none exactly when nothing matches |
| Ecs.FirstWhereIsFirst | src/systems/enemy/mod.rs:127-133 | a match whose predecessors all fail is the first match |
| Ecs.CountAfterSpawn | src/systems/enemy_spawner.rs:46-50 | spawning a new entity adds one to a query's count exactly when it matches |
| Ecs.World.Spawn | src/systems/enemy_spawner.rs:80-87 | the new entity gets a fresh id and is visited after every existing one; nothing else changes |
| Ecs.World.Despawn | src/systems/projectile/mod.rs:245-247 | the entity disappears from the store and the query order; nothing else changes |
| Ecs.World.Count | src/systems/enemy_spawner.rs:46 | the loop counts exactly the matching live entities |
| Ecs.World.FindFirst | src/systems/enemy/mod.rs:127-133 | the loop finds the first matching entity in query order, or none exactly when there is none |
| Ecs.AppliedNext | src/systems/enemy/mod.rs:136-140 | a loop over distinct ids meets each entity before it has moved, and its step changes that entity alone |
| Ecs.AppliedEvery | src/systems/enemy/mod.rs:136-140 | after a pass over every id, every entity has taken exactly its own step |
| Ecs.AppliedAt | src/systems/enemy/mod.rs:136-140 | after a pass over some ids, an entity among them has taken its step and any other is as it was |
| Ecs.StepAll | src/systems/enemy/mod.rs:136-140 | a `query_mut` loop visits each entity once in query order: each takes exactly its step, none is added or removed, and the requests come back in query order |
| EnemySpawners.Level | src/systems/enemy_spawner.rs:36 | the difficulty level is the number of whole 30-second periods elapsed |
| EnemySpawners.WaveAt | src/systems/enemy_spawner.rs:36-39 | the interval drops half a second per level down to 1.5, the cap rises by two per level up to 20, and the multiplier grows by 0.2 per level |
| EnemySpawners.WavesGetHarder | src/systems/enemy_spawner.rs:36-39 | from the start of play the interval stays within [1.5, 5], the cap within [10, 20] and the multiplier at least 1; as time passes the interval never grows and the cap and multiplier never shrink |
| EnemySpawners.SpawnedEnemy | src/systems/enemy_spawner.rs:54-88 | the spawned entity is an enemy with a new controller, standing at the chosen spawn point shifted by the drawn offset |
| EnemySpawners.SpawnedEnemyRules | src/systems/enemy_spawner.rs:54-88 | a spawned enemy has the default health and damage scaled by the multiplier, stands within 50 units of its spawn point, has unit mass, and is drawn and collided at the same size, 0.9 to 1.1 times the default |
| EnemySpawners.EnemySpawner.constructor | src/systems/enemy_spawner.rs:19-28 | a new spawner has both clocks at zero and the level-0 settings |
| EnemySpawners.EnemySpawner.GetSpawnWaveInfo | src/systems/enemy_spawner.rs:90-92 | the reported settings are the spawner's current ones |
| EnemySpawners.EnemySpawner.SpawnEnemy | src/systems/enemy_spawner.rs:54-88 | exactly one entity, the spawned enemy, is added at the end of the query order |
| EnemySpawners.EnemySpawner.Update | src/systems/enemy_spawner.rs:30-52 | both clocks advance and the settings follow the elapsed time; when the timer is due it restarts, and one enemy spawns exactly when the population is under the cap and there is a spawn point; otherwise the world is unchanged |
| EnemySpawners.EnemySpawner.SpawnIfRoom | src/systems/enemy_spawner.rs:45-50 | one enemy spawns exactly when the population is below the cap and a spawn point exists; otherwise the world is unchanged |
| EnemySpawners.SpawnKeepsCap | src/systems/enemy_spawner.rs:46-50 | a spawn under the cap raises the enemy count by exactly one, so it never passes the cap |
| WinConditions.GetDescription | src/game/win_condition.rs:59-73 | only a survival objective names its duration, which it reports exactly; every fixed text is non-empty |
| WinConditions.CompoundDescriptionCount | src/game/win_condition.rs:66-68 | a compound objective's text reads back its number of sub-objectives |
| WinConditions.CountTrue | src/game/win_condition.rs:156-172 | the count never exceeds the list, equals it exactly when all hold and is zero exactly when none holds |
| WinConditions.CheckCompletion | src/game/win_condition.rs:75-208 | completion and the Complete progress go together; a goal is reached within its radius, enemies are defeated at zero, time is survived at the duration, items are collected at the requirement, the boss at its defeat; an unfinished compound reports fewer done than it has; an unfinished Any reports the fixed 0 of 1 |
| WinConditions.CompoundMeansAll | src/game/win_condition.rs:155-184 | a compound objective is complete exactly when every sub-objective is, and otherwise its progress counts the completed ones |
| WinConditions.AnyMeansSome | src/game/win_condition.rs:186-206 | an Any objective is complete exactly when some sub-objective is |
| WinConditions.ConcatenatedObjectives | src/game/win_condition.rs:155-206 | joining two lists makes Compound the conjunction and Any the disjunction of the parts |
| WinConditions.CompletionIsMonotone | src/game/win_condition.rs:113-153 | objectives built from time, item and boss goals stay complete as time passes, items accumulate and the boss stays defeated |
| LevelManagers.Collected | src/game/level_manager.rs:73-75 | the count of collected items never exceeds the list and is zero exactly when none is collected |
| LevelManagers.CollectOneMore | src/game/level_manager.rs:73-76 | picking up an item still there adds exactly one to the collected count |
| LevelManagers.Uncollected | src/game/level_manager.rs:106-110 | clearing the flags keeps every item's position and leaves none collected |
| LevelManagers.LevelManager.constructor | src/game/level_manager.rs:16-34 | the manager starts at the first level with a fresh clock, no items, the boss alive and nothing complete |
| LevelManagers.LevelManager.GetCurrentLevel | src/game/level_manager.rs:36-38 | the current level is the one at the current index |
| LevelManagers.LevelManager.Update | src/game/level_manager.rs:44-48 | the level clock advances by dt until the level is complete and then stops; nothing else changes |
| LevelManagers.LevelManager.CheckWinCondition | src/game/level_manager.rs:50-69 | the verdict and progress are the current objective's against the running level's facts; a complete verdict latches the level complete and nothing else changes |
| LevelManagers.LevelManager.CollectItem | src/game/level_manager.rs:71-79 | an item of the current level that is still there is marked collected and counted, and the pickup succeeds; any other index changes nothing |
| LevelManagers.LevelManager.DefeatBoss | src/game/level_manager.rs:81-83 | the boss is marked defeated and nothing else changes |
| LevelManagers.LevelManager.ResetLevelState | src/game/level_manager.rs:100-111 | the clock, counter and flags restart and every collectible of the current level is there again; other levels are untouched |
| LevelManagers.LevelManager.RestartLevel | src/game/level_manager.rs:96-98 | the current level starts over with a fresh state |
| LevelManagers.LevelManager.NextLevel | src/game/level_manager.rs:85-94 | it advances to the following level with a fresh state exactly when there is one; on the last level it marks every level complete and stays |
| LevelManagers.LevelManager.GoToLevel | src/game/level_manager.rs:113-121 | an existing level becomes current with a fresh state; any other index changes nothing |
| LevelManagers.CollectTwice | src/game/level_manager.rs:71-79 | collecting the same item twice counts it at most once, and the counter never exceeds the level's items |
| WinConditionSystem.PlayerPosition | src/systems/win_condition_system.rs:13-18 | the first player's position, or the origin when there is no player |
| WinConditionSystem.CheckWinConditions | src/systems/win_condition_system.rs:9-25 | the current objective is checked against the first player's position and the number of enemies in the world, with the level manager's clock, items and boss flag; the manager latches completion and nothing else in it changes |
| WinConditionSystem.PickedUp | src/systems/win_condition_system.rs:44-61 | every item keeps its place, and an item is collected afterwards exactly when it was before or the player's box touches its 32×32 square |
| WinConditionSystem.PickedUpCounts | src/systems/win_condition_system.rs:44-61 | picking up adds exactly the touched items to the collected count |
| WinConditionSystem.Touched | src/systems/win_condition_system.rs:47-59 | no more items are touched than are still there |
| WinConditionSystem.CheckCollectibles | src/systems/win_condition_system.rs:27-63 | without a player nothing changes; with one, exactly the items its box touches are collected in the current level, and the clock and flags are untouched |
| WinConditionSystem.CollectibleMarkerAt | src/systems/win_condition_system.rs:70-74 | a collectible marker stands at the item with the 32×32 blue sprite |
| WinConditionSystem.Markers | src/systems/win_condition_system.rs:65-77 | one marker per item still there |
| WinConditionSystem.MarkersMarkItems | src/systems/win_condition_system.rs:68-76 | every marker stands on an item still there |
| WinConditionSystem.SpawnedRules | src/systems/win_condition_system.rs:68-76 | spawning adds exactly the fresh ids from the next id on, each holding its entity, and leaves older entities alone |
| WinConditionSystem.SpawnCollectibles | src/systems/win_condition_system.rs:65-77 | a marker is spawned for every item still there, in order, with fresh ids |
| WinConditionSystem.SpawnMarkers | src/systems/win_condition_system.rs:68-76 | one marker per collectible not yet collected, in the level's order, each under the next fresh id; nothing else in the world changes |
| WinConditionSystem.GoalMarkerAt | src/systems/win_condition_system.rs:83-87 | a goal marker stands at the goal with the 64×64 translucent green sprite |
| WinConditionSystem.SpawnGoalMarker | src/systems/win_condition_system.rs:79-89 | one goal marker is spawned exactly when the current level has a goal; otherwise the world is unchanged |
| Buildings.NewBuilding | src/game/buildings.rs:14-20 | a new building keeps its asset, is not destructible and has no health |
| Buildings.MakeDestructible | src/game/buildings.rs:22-26 | the builder makes the building destructible with the given health and keeps its asset |
| Buildings.HealthOnlyWhenDestructible | src/game/buildings.rs:14-26 | a building has health exactly when it is destructible, and applying the builder twice keeps only the last health |
| Buildings.Destructible.constructor | src/game/buildings.rs:133-139 | a new pool is at full health with 10 debris particles |
| Buildings.Destructible.TakeDamage | src/game/buildings.rs:141-144 | health drops by the damage but not below zero, and the result says destroyed exactly when the damage was at least the health left |
| Buildings.Destructible.HealthPercentage | src/game/buildings.rs:146-148 | the fraction times the maximum is the health left, and it lies in [0, 1] while the health is within its pool |
| Buildings.TwoHits | src/game/buildings.rs:141-144 | two hits leave the health of one hit of their sum, and a building destroyed by the first is still destroyed after the second |
| DayNightCycles.DayNightCycle.constructor | src/game/day_night_cycle.rs:11-17 | the clock starts at 30 seconds of a 120-second cycle, by day |
| DayNightCycles.DayNightCycle.Update | src/game/day_night_cycle.rs:19-25 | the clock advances by the frame time, wrapping once at the cycle length, and it is day exactly in the first 60 seconds |
| DayNightCycles.Advanced | src/game/day_night_cycle.rs:19-23 | the new time is the old plus the frame time, less at most one cycle, and stays within the cycle for frame times up to a cycle |
| DayNightCycles.UpdateKeepsCycle | src/game/day_night_cycle.rs:19-35 | after an update the clock stays in [0, 120), the day flag matches the first half and the phase progress lies in [0, 1) |
| DayNightCycles.PhaseProgress | src/game/day_night_cycle.rs:28-34 | the progress is the time since the start of the day or of the night in minutes, and it lies in [0, 1) within its phase |
| DayNightCycles.DayNightCycle.GetPhaseProgress | src/game/day_night_cycle.rs:28-34 | the progress of the clock's own time and day flag |
| DayNightCycles.AmbientLight | src/game/day_night_cycle.rs:288-311 | the light is always opaque, one of dawn, daylight or sunset by day and evening or night by night |
| DayNightCycles.DayNightCycle.GetAmbientLight | src/game/day_night_cycle.rs:288-311 | the light for the clock's own phase progress |
| DayNightCycles.AmbientLightOverCycle | src/game/day_night_cycle.rs:288-311 | over one cycle the light is dawn before 15 s, daylight until 45 s, sunset until 60 s, evening until 90 s and night after that |
| DayNightCycles.Blend | src/game/day_night_cycle.rs:279-282 | a blended channel lies between its two ends and equals them at t = 0 and t = 1 |
| DayNightCycles.BlendBetween | src/game/day_night_cycle.rs:279-282 | a convex combination of two values lies between them |
| DayNightCycles.LerpBetween | src/game/day_night_cycle.rs:279-282 | the blend of two values lies between them and equals the start at t = 0 and the end at t = 1 |
| DayNightCycles.ScaleOrdered | src/game/day_night_cycle.rs:279-282 | scaling two ordered values by a fraction keeps them in order and does not widen their gap |
| DayNightCycles.BlendEnds | src/game/day_night_cycle.rs:279-282 | the blend formula gives its start at t = 0 and its end at t = 1 |
| DayNightCycles.CastBetween | src/game/day_night_cycle.rs:279-282 | a value between two channel values is cast to a channel between them |
| DayNightCycles.InterpolateColor | src/game/day_night_cycle.rs:277-285 | t is clamped to [0, 1], every channel lies between the two colours, the ends give the two colours, and the result is opaque |
| DayNightCycles.DayNightCycle.SkyBands | src/game/day_night_cycle.rs:37-45 | the gradient has 100 full-width bands, band i starting i band heights down |
| DayNightCycles.BandsTile | src/game/day_night_cycle.rs:37-45 | the bands tile the sky: each starts where the one before ends, the first at 0 and the last ends at the full height |
| Layers.Depth | src/engine/rendering/layers.rs:5-21 | the seven layers have depths 0 to 6, the far background alone at 0 and the UI alone at 6 |
| Layers.LayersTotallyOrdered | src/engine/rendering/layers.rs:5-27 | the derived ordering is total and strict, and the default layer (gameplay) lies above the three backgrounds and below entities, foreground and UI |
| Layers.NewParallax | src/engine/rendering/layers.rs:42-49 | a new configuration keeps its scroll factors and does not scroll by itself |
| Layers.WithAutoScroll | src/engine/rendering/layers.rs:55-59 | only the automatic scroll speeds change |
| Layers.DefaultParallax | src/engine/rendering/layers.rs:64-74 | no layer scrolls by itself by default |
| Layers.ParallaxByDepth | src/engine/rendering/layers.rs:64-74 | up to gameplay, a layer further back scrolls strictly slower on both axes; gameplay and entities follow the camera, the foreground outruns it and the UI is static |
| Layers.Haze | src/engine/rendering/layers.rs:84-104 | a hazed channel is at most its scaled and lifted value, and never grows without a lift |
| Layers.AtmosphereTint | src/engine/rendering/layers.rs:77-110 | layers from gameplay forward keep the colour unchanged, and no layer becomes more opaque |
| Layers.NearBackgroundDarkens | src/engine/rendering/layers.rs:99-107 | the near background never brightens a channel and keeps the alpha |
| Layers.NewLayeredSprite | src/engine/rendering/layers.rs:122-128 | a new layered sprite keeps its sprite and layer, with no override |
| Layers.WithParallax | src/engine/rendering/layers.rs:130-133 | only the override changes, to the given configuration |
| Layers.GetParallax | src/engine/rendering/layers.rs:135-137 | the override when there is one, otherwise the layer's default |
| Layers.PlacementByLayer | src/engine/rendering/layers.rs:140-154 | without an override, gameplay and entity sprites sit at their world position whatever the camera and clock, and UI sprites move with the whole camera offset |
| Layers.CameraMotion | src/engine/rendering/layers.rs:140-154 | moving the camera moves a sprite by the motion times the part the layer does not follow, and time moves it by the automatic scroll |
| Anchors.CalculatePosition | src/engine/ui/mod.rs:39-64 | the position is the anchor's corner moved by the offset; the top-left anchor gives the offset itself |
| Anchors.AnchorPlacement | src/engine/ui/mod.rs:39-64 | left anchors touch the left edge, right anchors end exactly at the screen width, the others centre the element; likewise top, bottom and middle vertically |
| UiComponents.NewPanel | src/engine/ui/components.rs:104-116 | a new panel keeps its place and size, is visible, anchored top-left, translucent black with a faint white border |
| UiComponents.NewText | src/engine/ui/components.rs:148-159 | new text keeps its place and content, is visible, white, size 16, anchored top-left |
| UiComponents.ProgressBar.constructor | src/engine/ui/components.rs:22-37 | a new bar is full (target and shown value at the maximum), green, visible, animating at speed 5 |
| UiComponents.ProgressBar.HealthBar | src/engine/ui/components.rs:39-44 | a full bar with the crimson fill and dark red background |
| UiComponents.ProgressBar.EnergyBar | src/engine/ui/components.rs:46-51 | a full bar with the blue fill and dark blue background |
| UiComponents.ProgressBar.SetValue | src/engine/ui/components.rs:53-55 | the target becomes the value clamped into [0, max], so the bar stays valid, and nothing else changes |
| UiComponents.ProgressBar.FillPercentage | src/engine/ui/components.rs:57-59 | the fraction times the maximum is the shown value, and it lies in [0, 1] while the shown value is in range |
| UiComponents.ProgressBar.FillWidth | src/engine/ui/components.rs:61-63 | the filled width is the bar's width scaled by the shown fraction, never wider than the bar while the value is in range |
| UiComponents.Approach | src/engine/ui/components.rs:67-74 | a value within 0.01 of the target snaps to it; otherwise, with speed × dt at most 1, the step lands between the old value and the target and never moves away from the target |
| UiComponents.ApproachStep | src/engine/ui/components.rs:70 | a fraction in [0, 1] of a gap lies between zero and the gap |
| UiComponents.ProgressBar.Update | src/engine/ui/components.rs:67-74 | the shown value takes one animation step toward the target and nothing else changes |
| UiComponents.ProgressBar.SetPosition | src/engine/ui/components.rs:80-82 | only the position changes |
| UiComponents.ProgressBar.SetVisible | src/engine/ui/components.rs:88-90 | only the visibility changes |
| UiComponents.SetAndAnimate | src/engine/ui/components.rs:53-90 | after setting a target and animating one frame the target is in range, the shown value is no further from it than before, the fill fits in the bar and the visibility is the one last set |
| Clocks.Trunc | src/engine/ui/clock.rs:42-43 | truncation toward zero: the floor for non-negative values, within one above a negative value |
| Clocks.Fract | src/engine/ui/clock.rs:43 | the fractional part lies in (-1, 1) and is non-negative for non-negative values |
| Clocks.Hours | src/engine/ui/clock.rs:39-42 | the hour shown is below 24 |
| Clocks.Minutes | src/engine/ui/clock.rs:43 | the minute shown is below 60 |
| Clocks.FloorShift | src/engine/ui/clock.rs:43 | subtracting a whole number from a real subtracts it from its floor |
| Clocks.ClockReading | src/engine/ui/clock.rs:38-43 | within a cycle the hour is the whole hours of the cycle's fraction of 24, and hours × 60 + minutes is the floor of the fraction of 1440 minutes |
| Clocks.HourAndMinutes | src/engine/ui/clock.rs:40-43 | for an hour of the day neither `as u32` cast saturates: the hour is its whole hours and the minutes are the whole minutes of its fraction, below 60 |
| Clocks.FractionOf | src/engine/ui/clock.rs:40 | inside one cycle the elapsed part of the cycle is a fraction in [0, 1) |
| Clocks.TwoDigits | src/engine/ui/clock.rs:45 | `{:02}` gives two decimal digits that read back as the number |
| Clocks.TimeText | src/engine/ui/clock.rs:45 | the text is five characters, digits around a colon, the first two reading the hours and the last two the minutes |
| Clocks.BackgroundTint | src/engine/ui/clock.rs:47-53 | the panel is the ambient light darkened to at most a fifth (a third for blue) and alpha 150 |
| Clocks.TextColor | src/engine/ui/clock.rs:55-59 | the day colour exactly by day, the night colour exactly by night |
| Clocks.IconBands | src/engine/ui/clock.rs:62-74 | the star is never shown: sunrise exactly for hours 6-8, sun for 9-16, sundown for 17-19 and moon otherwise |
| Clocks.ClockWidget.constructor | src/engine/ui/clock.rs:17-36 | a new clock is a 120×40 dark panel reading 00:00 at size 20, anchored top centre, with the text inset inside the panel |
| Clocks.ClockWidget.UpdateTime | src/engine/ui/clock.rs:38-60 | the text reads the cycle's hours and minutes in the day or night colour, the panel takes the ambient tint, and nothing else changes |
| Clocks.ClockWidget.GetTimeIcon | src/engine/ui/clock.rs:62-74 | the icon is never the catch-all star |
| Clocks.ClockWidget.SetPosition | src/engine/ui/clock.rs:87-91 | the panel moves with the widget and the text keeps its 10-pixel inset |
| Clocks.ClockWidget.SetVisible | src/engine/ui/clock.rs:97-101 | the panel and the text take the widget's visibility |
| Clocks.ClockAtStart | src/engine/ui/clock.rs:38-74 | following a fresh day/night cycle the clock reads 06:00 in the day colour with the sunrise icon |
| Formatting.Pow10 | src/engine/ui/debug.rs:75-76 | powers of ten are at least 1 |
| Formatting.RoundHalfEven | src/engine/ui/debug.rs:75-76 | the result is within one half of the value, and an exact tie goes to the even neighbour |
| Formatting.PadZeros | src/engine/ui/debug.rs:75-76 | the text is padded on the left with zeros to the width and ends with the original text |
| Formatting.Scaled | src/engine/ui/debug.rs:75-76 | the magnitude in units of 10^-N, rounded to within one half |
| Formatting.Unsigned | src/engine/ui/debug.rs:75-76 | with N decimals the text has at least N + 2 characters and a point N places from the end; with none, at least one digit |
| Formatting.FormatFixed | src/engine/ui/debug.rs:75-87 | `{:.N}` prints more than N characters, starting with a minus exactly for negative values, followed by the rounded magnitude |
| Formatting.UnsignedReadsBack | src/engine/ui/debug.rs:75-76 | with the point removed, the printed number is the zero-padded digits of the rounded value |
| Formatting.RemovePoint | src/engine/ui/debug.rs:75-76 | inserting the point and removing it again gives back the digits |
| Formatting.PaddedValue | src/engine/ui/debug.rs:75-76 | the zero-padded digits of a number read back as that number |
| Formatting.DigitsValueAppend | src/engine/ui/debug.rs:75-76 | the value of two digit strings joined is the first shifted by the second's length plus the second |
| Formatting.LeadingZeros | src/engine/ui/debug.rs:75-76 | leading zeros do not change a digit string's value |
| Formatting.ZerosValue | src/engine/ui/debug.rs:75-76 | a string of zeros reads as 0 |
| Core.NatToString | src/engine/ui/debug.rs:77-78 | `{}` on an unsigned number prints at least one decimal digit and nothing else |
| Core.NatToStringRoundTrip | src/engine/ui/debug.rs:77-78 | the printed digits read back as the number |
| Core.NewTransform | src/engine/core/transform.rs:11-17 | a new transform sits at the position, unrotated, at unit scale |
| Core.NewSprite | src/engine/rendering/sprite.rs:12-18 | a new sprite keeps its size and colour and draws the whole texture |
| Core.NormalizeOrZero | src/systems/enemy/mod.rs:105 | a vector of positive length scaled back by that length is the vector; otherwise the result is zero |
| Core.CenteredRect | src/systems/player/mod.rs:148-153 | the rectangle has the given size and its centre at the position |
| Core.Clamp | src/engine/ui/components.rs:54 | the result lies in [lo, hi], equals the value inside the range and the nearer bound outside it |
| Core.Ceil | src/game/level.rs:175 | the ceiling is the least integer not below the value |
| Core.Round | src/engine/rendering/camera.rs:41 | rounding lands within one half of the value, and a value exactly halfway between two integers goes to the one farther from zero |
| Core.CastUsize | src/game/level.rs:168-169 | `as usize` truncates non-negative values and sends values below 1 to 0 |
| Core.CastU32 | src/engine/ui/clock.rs:42 | `as u32` saturates at the type's maximum and truncates values in range |
| Core.CastU8 | src/game/day_night_cycle.rs:280-282 | `as u8` truncates values in range, sends values below 1 to 0 and saturates at 255 |
| Core.ToRadians | src/systems/player/mod.rs:131 | the radians times 180 are the degrees times pi |
| DebugOverlays.LineAt | src/engine/ui/debug.rs:29 | line i sits 10 right and 10 + 20·i below the overlay |
| DebugOverlays.StatsLine | src/engine/ui/debug.rs:27-35 | a line starts empty, size 14, green and visible, at its place |
| DebugOverlays.Fps | src/engine/ui/debug.rs:57-61 | a frame that took time has the frame rate whose product with the frame time is 1; otherwise the rate is 0 |
| DebugOverlays.PushSample | src/engine/ui/debug.rs:63-66 | the sample is appended at the back, and the oldest is dropped only once there are more than 60, so the window is the last at most 60 samples |
| DebugOverlays.Mean | src/engine/ui/debug.rs:68-72 | the mean times the count is the sum, and the mean of no samples is 0 |
| DebugOverlays.SumBounds | src/engine/ui/debug.rs:69 | the sum of n samples lies between n times their lower and upper bounds |
| DebugOverlays.MeanBounds | src/engine/ui/debug.rs:68-72 | the moving average lies between the bounds of the samples it covers |
| DebugOverlays.StatsTexts | src/engine/ui/debug.rs:74-91 | there are exactly six lines of statistics |
| DebugOverlays.PointText | src/engine/ui/debug.rs:80-90 | a missing position or velocity prints as N/A, and only then |
| DebugOverlays.WithContents | src/engine/ui/debug.rs:74-91 | with at least six lines, the first six take the new contents and keep everything else; with fewer, nothing changes |
| DebugOverlays.DebugOverlay.constructor | src/engine/ui/debug.rs:18-46 | a new overlay is hidden, anchored top right, with a 250×150 dark panel, six empty green lines at their places, no samples and frame 0 |
| DebugOverlays.DebugOverlay.Average | src/engine/ui/debug.rs:68-72 | the samples added up front to back, over their count, are their mean |
| DebugOverlays.DebugOverlay.UpdateStats | src/engine/ui/debug.rs:48-92 | the frame counter grows by one, the window takes the new frame rate, the six lines are rewritten from the new statistics and nothing else changes |
| DebugOverlays.DebugOverlay.Toggle | src/engine/ui/debug.rs:94-96 | the overlay's visibility flips and nothing else changes |
| DebugOverlays.DebugOverlay.SetPosition | src/engine/ui/debug.rs:111-117 | the panel moves with the overlay and line i is laid out at its inset below it |
| DebugOverlays.DebugOverlay.SetVisible | src/engine/ui/debug.rs:123-129 | the panel and every line take the overlay's visibility |
| DebugOverlays.ToggleTwice | src/engine/ui/debug.rs:94-96 | two toggles restore the visibility and leave the lines alone |
| Layouts.Uniform | src/engine/ui/layout.rs:16-23 | all four sides take the value |
| Layouts.Symmetric | src/engine/ui/layout.rs:25-32 | top and bottom take the vertical value, left and right the horizontal one |
| Layouts.UniformIsSymmetric | src/engine/ui/layout.rs:16-32 | a uniform margin is the symmetric margin with equal values |
| Layouts.Extent | src/engine/ui/layout.rs:45-67 | no elements take no room |
| Layouts.ExtentGrows | src/engine/ui/layout.rs:45-67 | with non-negative sizes and spacing, a longer prefix never takes less room, so a stack never runs backwards |
| Layouts.StackVertical | src/engine/ui/layout.rs:45-55 | one position per element, all in the start column, each below the start by the heights and spacings of the elements before it |
| Layouts.StackHorizontal | src/engine/ui/layout.rs:57-67 | one position per element, all in the start row, each right of the start by the widths and spacings of the elements before it |
| Layouts.StackSpacing | src/engine/ui/layout.rs:45-67 | consecutive elements are exactly one element plus the spacing apart |
| Layouts.CenterInRect | src/engine/ui/layout.rs:69-74 | the element's centre is the container's centre, and an element no larger than the container lies inside it |
| Layouts.ApplyMargin | src/engine/ui/layout.rs:76-78 | the position moves by the left and top sides |
| Layouts.MarginSides | src/engine/ui/layout.rs:76-78 | the right and bottom sides never move a position, and a uniform margin moves it diagonally by its value |
| Ecs.World.constructor | src/engine/mod.rs:25 | a new world holds no entities, visits none and hands out ids from 0 |
| Ecs.World.Store | src/systems/player/mod.rs:90-95 | the components a mutable query borrowed are written back: the same entities in the same order with the same next id |
| Ecs.World.Replace | src/systems/mech/transformation.rs:57-58 | components added or removed on existing entities are written back, keeping the order, the next id and the world's invariant |

## Left out

- The SDL2 platform, the frame loop and all drawing (`src/main.rs`, `src/engine/mod.rs`, the renderer, the UI manager, the minimap and the font table) are not part of this model. They call the modelled systems once per frame and hold no rule of their own.
- `hecs` is an external crate. Its world is modelled as `Ecs.World`, with a given query order (`order`). Borrow checking and archetype storage are left out. A query that borrows components mutably is modelled as a loop over a local copy that is written back with `Ecs.World.Store`.
- Random draws (`rand::thread_rng`) are parameters: the spawn point, x jitter, size and colour in `EnemySpawners.SpawnEnemy`, and the shot spread in `PlayerSystems.Volley`. The random-number generator itself is not modelled.
- The Euclidean length of a vector (`length`, and therefore `normalize_or_zero`) cannot be computed over `real`, so it is a parameter wherever a length value is needed. Circle collisions compare squared lengths, which decides the same as comparing lengths (`Physics.ShorterThan`). The nearest-mech search compares values of the `length` parameter, as `find_nearest_mech` does.
- Floating point: `f32` is `real`, so rounding error, infinities and NaN are not modelled. Where the source divides by a field that could be zero, the model requires it to be non-zero, as listed below.
- Procedural cosmetics are not part of this model: the city and skyline generators (`src/game/buildings.rs:40-121`), the cloud and sky assets that `from_string` builds (`src/game/level.rs:119-147`), the sky palettes, and the smoothstep blending of `interpolate_rgb`. Only the band layout of the sky gradient is modelled (`DayNightCycles.DayNightCycle.SkyBands`).
- Particles (muzzle flashes, impacts, explosions and debris) are visual only and are left out. Explosions never deal area damage in the source (the TODO at `src/systems/projectile/mod.rs:157`), and the model adds none.
- The built-in test levels (`src/game/level.rs:199-355`) are left out. `LevelManagers.LevelManager.constructor` takes the list of levels as a parameter.
- `log::info!` messages and `src/engine/core/time.rs`, which wraps the system clock, are left out. Frame times are parameters.
- `Rect::intersects` lives in `src/engine/core/math.rs`, which is not part of this model. `Core.Intersects` is the standard strict overlap test of two axis-aligned rectangles.
- Integer widths: counters (`frame_counter`, `jump_count`, `items_collected`, entity ids) are unbounded `nat`s. `u32` and `usize` overflow are not modelled, except in the float-to-integer casts and the finding below.
- Trivial queries (`is_key_down`, `can_shoot`, `can_boost`, `is_destroyed`, `is_expired`, getters such as `get_position` and `is_visible`) are predicates or functions. The contracts of the members above state their meaning, and they have no rows of their own.
- `Panel::update` and `Text::update` do nothing in the source. Panels and texts are values owned by their widgets, so there is nothing to model.
- WinConditions.GetDescription: keeps the survival time as a number rather than text, because the source prints the `f32` with `{}` (shortest round-trip form). The progress messages that print floats with `{:.0}` keep their number the same way (`DistanceToGoal`, `TimeRemaining`). The debug overlay's text uses `Formatting.FormatFixed`.
- Physics.ApplyForce: requires a non-zero mass. The source divides by the mass, and with mass 0 it produces infinities.
- Weapons.Cooldown: requires a positive fire rate (every catalog weapon has one), because the source computes `1 / fire_rate`.
- MechWeapons.CooldownTime: requires a positive fire rate, for the same reason.
- Enemies.AimPoint: requires a positive projectile speed, because the lead time divides by it. `Enemies.UpdateTarget` and `EnemySystems.EnemyAiSystem` inherit this requirement.
- PlayerSystems.PlayerMovementSystem: requires every moving body to have a non-zero mass, because gravity is applied through `apply_force`. `EnemySystems.EnemyPhysicsSystem` requires the same of falling enemies.
- ProjectileSystem.MoveProjectiles: requires every flying projectile to have a non-zero mass (`ProjectileSystem.Ballistic`), because gravity is applied through `apply_force`. `ProjectileSystem.RunProjectileSystem` requires the same. Every projectile the game spawns has mass 0.1 (`src/main.rs:188` and `src/main.rs:206`).
- Cameras.Camera.ScreenToWorld: requires a non-zero zoom. `Cameras.Camera.Follow` requires it in pixel-perfect mode, because both divide by the zoom. The camera's setter clamps the target zoom to [0.1, 5].
- Buildings.Destructible.HealthPercentage: requires a non-zero maximum health, because it divides by it.
- UiComponents.ProgressBar.FillPercentage: requires a non-zero maximum. `UiComponents.ProgressBar.FillWidth` requires the same.
- Clocks.ClockWidget.UpdateTime: requires a non-zero cycle length. `Clocks.Hours`, `Clocks.Minutes` and `Clocks.ClockWidget.GetTimeIcon` require the same.
- Physics.CheckCollision: requires non-negative box sizes in the box/circle arms, because `f32::clamp` panics when its lower bound exceeds the upper. Nothing in the source calls this function.
- The per-stage helpers have no row of their own: `MechMovement.Boost`, `MechMovement.Leap`, `MechMovement.Advance`, `PlayerSystems.MoveStep`, `PlayerSystems.GroundProbe`, `ProjectileSystem.Probe`, `ProjectileSystem.Land`, `ProjectileSystem.Fly`, `EnemySystems.AiStep`, `EnemySystems.FallStep` and `AxisMove.Resolve`. The rows of the members that call them state what they compute.
- UiComponents.ProgressBar.SetValue: requires a non-negative maximum, because `f32::clamp` panics when the lower bound exceeds the upper.
- MechMovement.MechMovementSystem: requires a level at least three rows tall. `src/systems/mech/movement.rs:99` computes `level.height - 3` on `usize`, the same underflow as the finding below.
- EnemySpawners.EnemySpawner.Update: requires the random draw to lie in the ranges that `gen_range` produces. With no spawn points the source never draws, and the model requires nothing then.
- MechTransformation.Exit: requires the mech's occupancy flag and pilot to agree (`Mechs.Mech.Consistent`). Every mech the game creates, enters or leaves keeps that agreement, and `Ecs.World` keeps it as an invariant.
- MechTransformation.EnterRules: requires the pilot and the mech to be different entities. `MechTransformation.EnterThenExit` requires the same, because an entity that is its own mech is not something the game creates.
- LevelManagers.LevelManager.constructor: requires the first level's collectibles all to start uncollected, as they do in every level of the game. This keeps `items_collected` equal to the number of set flags.
- DebugOverlays.StatsTexts: states only that there are six lines. Their exact text is the function's definition, built from `Formatting.FormatFixed` and `Core.NatToString`, whose read-back properties are proved.
- Layers.CalculatePosition: has no contract of its own. `Layers.PlacementByLayer` and `Layers.CameraMotion` state what it computes.

## Findings

| source | as written | input that shows it | evidently intended | confidence | as-written member | corrected member |
|---|---|---|---|---|---|---|
| src/game/level.rs:124 | `from_string` computes `ground_y` as `(height - 3) as f32 * TILE_SIZE` on `usize`. This underflows for a level of fewer than three lines: a panic in debug builds and a huge value in release builds. The value is never used afterwards. | the level string `"S\n##"` (two lines) | the ground at the top of the last three rows, or at the top for shorter levels, never failing | not executed | Levels.GroundYAsWritten, Levels.ShortLevelOverflows | Levels.GroundY, Levels.GroundYAgrees |
