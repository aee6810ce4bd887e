/** The move-then-resolve step that the player and enemy movement systems
    share (systems/player/mod.rs, lines 145-183, and systems/enemy/mod.rs,
    lines 191-220): the horizontal move is tried first with the old `y`; the
    vertical move is tried next at the resulting `x`. A blocked axis keeps its
    coordinate and loses that velocity component. */
module AxisMove {
  import opened Core
  import opened Levels

  datatype Resolved = Resolved(position: Vec2, velocity: Vec2, blockedX: bool, blockedY: bool)

  /** The rectangle tested for the horizontal move. */
  function XProbe(pos: Vec2, vel: Vec2, size: Vec2, dt: real): Rect
  {
    CenteredRect(Vec2(pos.x + vel.x * dt, pos.y), size)
  }

  /** The rectangle tested for the vertical move, at the `x` the horizontal
      test left. */
  function YProbe(pos: Vec2, vel: Vec2, size: Vec2, dt: real, blockedX: bool): Rect
  {
    CenteredRect(Vec2(if blockedX then pos.x else pos.x + vel.x * dt, pos.y + vel.y * dt), size)
  }

  /** Position and velocity once the two outcomes are known: a blocked axis
      keeps its coordinate and zeroes that velocity component; a free axis
      commits the move and keeps its velocity. */
  function Commit(pos: Vec2, vel: Vec2, dt: real, blockedX: bool, blockedY: bool): (r: Resolved)
    ensures r.blockedX == blockedX && r.blockedY == blockedY
    ensures blockedX ==> r.position.x == pos.x && r.velocity.x == 0.0
    ensures !blockedX ==> r.position.x == pos.x + vel.x * dt && r.velocity.x == vel.x
    ensures blockedY ==> r.position.y == pos.y && r.velocity.y == 0.0
    ensures !blockedY ==> r.position.y == pos.y + vel.y * dt && r.velocity.y == vel.y
  {
    Resolved(Vec2(if blockedX then pos.x else pos.x + vel.x * dt, if blockedY then pos.y else pos.y + vel.y * dt),
             Vec2(if blockedX then 0.0 else vel.x, if blockedY then 0.0 else vel.y),
             blockedX, blockedY)
  }

  /** The outcome of the two tests, stated with the collision predicate. */
  ghost function Resolve(level: Level, pos: Vec2, vel: Vec2, size: Vec2, dt: real): Resolved
    requires level.Valid()
  {
    var blockedX := Collides(level, XProbe(pos, vel, size, dt));
    Commit(pos, vel, dt, blockedX, Collides(level, YProbe(pos, vel, size, dt, blockedX)))
  }

  /** The step as the systems perform it, with the tile-collision loop. */
  method ResolveAxes(level: Level, pos: Vec2, vel: Vec2, size: Vec2, dt: real) returns (r: Resolved)
    requires level.Valid()
    ensures r == Resolve(level, pos, vel, size, dt)
  {
    var blockedX := CheckCollision(level, XProbe(pos, vel, size, dt));
    var blockedY := CheckCollision(level, YProbe(pos, vel, size, dt, blockedX));
    r := Commit(pos, vel, dt, blockedX, blockedY);
  }

  /** The step never moves a body into solid tiles: a body whose rectangle was
      free of the level ends in a free rectangle. */
  lemma {:induction false} NeverEntersWalls(level: Level, pos: Vec2, vel: Vec2, size: Vec2, dt: real)
    requires level.Valid()
    requires !Collides(level, CenteredRect(pos, size))
    ensures !Collides(level, CenteredRect(Resolve(level, pos, vel, size, dt).position, size))
  {
    var bx := Collides(level, XProbe(pos, vel, size, dt));
    var hitY := Collides(level, YProbe(pos, vel, size, dt, bx));
    var r := Commit(pos, vel, dt, bx, hitY);
    assert r == Resolve(level, pos, vel, size, dt);
    if !hitY {
      assert CenteredRect(r.position, size) == YProbe(pos, vel, size, dt, bx);
    } else if !bx {
      assert CenteredRect(r.position, size) == XProbe(pos, vel, size, dt);
    } else {
      assert r.position == pos;
    }
  }

  /** In a level without solid tiles nothing is ever blocked: the body moves
      by `vel * dt` and keeps its velocity. */
  lemma {:induction false} OpenLevelMovesFreely(level: Level, pos: Vec2, vel: Vec2, size: Vec2, dt: real)
    requires level.Valid()
    requires forall y, x :: 0 <= y < level.height && 0 <= x < level.width ==> !level.tiles[y][x].solid
    ensures Resolve(level, pos, vel, size, dt) ==
            Resolved(pos.Add(vel.Scale(dt)), vel, false, false)
  {
    var newX := pos.x + vel.x * dt;
    NoSolidNoCollision(level, CenteredRect(Vec2(newX, pos.y), size));
    NoSolidNoCollision(level, CenteredRect(Vec2(newX, pos.y + vel.y * dt), size));
  }
}
