/** The tile grid of a level: tiles, the level-string parser, tile lookup and
    the rectangle-against-tiles collision test (game/level.rs). */
module Levels {
  import opened Core
  import opened WinConditions

  const TileSize: real := 32.0

  datatype TileType = Empty | Ground | Platform | Wall | Destructible

  datatype Tile = Tile(tileType: TileType, solid: bool, color: Color)

  /** `Tile::new`: every tile but `Empty` is solid; each type has its colour. */
  function NewTile(t: TileType): (tile: Tile)
    ensures tile.tileType == t
    ensures tile.solid <==> t != Empty
    ensures tile.color.a == if t == Empty then 0 else 255
  {
    match t
    case Empty => Tile(t, false, Color(0, 0, 0, 0))
    case Ground => Tile(t, true, Color(80, 60, 40, 255))
    case Platform => Tile(t, true, Color(120, 100, 80, 255))
    case Wall => Tile(t, true, Color(100, 100, 100, 255))
    case Destructible => Tile(t, true, Color(160, 140, 120, 255))
  }

  /** A collectible item of the level and whether it has been picked up. */
  datatype Collectible = Collectible(position: Vec2, collected: bool)

  /** `Level`, without its cosmetic content (buildings, street props, sky
      gradient, clouds). */
  datatype Level = Level(
    tiles: seq<seq<Tile>>,
    width: nat,
    height: nat,
    spawnPoint: Vec2,
    name: string,
    description: string,
    winCondition: WinCondition,
    goalPosition: Option<Vec2>,
    timeLimit: Option<real>,
    collectibles: seq<Collectible>,
    bossSpawn: Option<Vec2>)
  {
    /** The grid has `height` rows of `width` tiles. */
    ghost predicate Valid()
    {
      |tiles| == height && forall y :: 0 <= y < |tiles| ==> |tiles[y]| == width
    }
  }

  /** `Level::new`: an all-empty grid spawning at (100, 100). */
  function NewLevel(width: nat, height: nat): (l: Level)
    ensures l.Valid() && l.width == width && l.height == height
    ensures forall y, x :: 0 <= y < height && 0 <= x < width ==> l.tiles[y][x] == NewTile(Empty)
    ensures l.spawnPoint == Vec2(100.0, 100.0) && l.collectibles == [] && l.goalPosition == None
    ensures l.winCondition == DefeatAllEnemies
  {
    Level(seq(height, _ => seq(width, _ => NewTile(Empty))), width, height, Vec2(100.0, 100.0),
          "Unnamed Level", "No description", DefeatAllEnemies, None, None, [], None)
  }

  /** `Level::get_tile`. */
  function GetTile(level: Level, x: nat, y: nat): (r: Option<Tile>)
    requires level.Valid()
    ensures r.Some? <==> x < level.width && y < level.height
    ensures r.Some? ==> r.value == level.tiles[y][x]
  {
    if x < level.width && y < level.height then Some(level.tiles[y][x]) else None
  }

  /** The grid cell holding a world coordinate, as the saturating
      `(v / TILE_SIZE) as usize` computes it. */
  function CellIndex(v: real): (i: nat)
    ensures v < TileSize ==> i == 0
    ensures v >= 0.0 ==> i as real * TileSize <= v < (i + 1) as real * TileSize
  {
    CastUsize(v / TileSize)
  }

  /** `Level::get_tile_at_position`. */
  function GetTileAtPosition(level: Level, pos: Vec2): (r: Option<Tile>)
    requires level.Valid()
    ensures 0.0 <= pos.x < level.width as real * TileSize && 0.0 <= pos.y < level.height as real * TileSize ==>
              r.Some? && r.value == level.tiles[CellIndex(pos.y)][CellIndex(pos.x)]
    ensures r.Some? ==> pos.x < level.width as real * TileSize && pos.y < level.height as real * TileSize
  {
    GetTile(level, CellIndex(pos.x), CellIndex(pos.y))
  }

  /** The world rectangle of the tile in column `x`, row `y`. */
  function TileRect(x: nat, y: nat): Rect
  {
    Rect(x as real * TileSize, y as real * TileSize, TileSize, TileSize)
  }

  /** First index scanned: `(v / TILE_SIZE).floor() as usize` (the `.max(0)`
      after it is a no-op on `usize`; negative values saturate to 0). */
  function StartIndex(v: real): (i: nat)
    ensures v < TileSize ==> i == 0
    ensures v >= 0.0 ==> i == (v / TileSize).Floor
  {
    CastUsize((v / TileSize).Floor as real)
  }

  /** One past the last index scanned: `(v / TILE_SIZE).ceil() as usize`,
      capped at the grid size. */
  function EndIndex(v: real, bound: nat): (i: nat)
    ensures i <= bound
    ensures v > 0.0 ==> i == if Ceil(v / TileSize) < bound then Ceil(v / TileSize) else bound
    ensures v <= 0.0 ==> i == 0
  {
    var c := CastUsize(Ceil(v / TileSize) as real);
    if c < bound then c else bound
  }

  /** The solid tile at (x, y) overlaps `rect`. */
  ghost predicate Hit(level: Level, rect: Rect, x: nat, y: nat)
    requires level.Valid()
  {
    y < level.height && x < level.width && level.tiles[y][x].solid && Intersects(rect, TileRect(x, y))
  }

  /** What `Level::check_collision` decides: some solid tile inside the clamped
      index window overlaps the rectangle. */
  ghost predicate Collides(level: Level, rect: Rect)
    requires level.Valid()
  {
    var sx, ex := StartIndex(rect.x), EndIndex(rect.x + rect.width, level.width);
    var sy, ey := StartIndex(rect.y), EndIndex(rect.y + rect.height, level.height);
    exists y: nat, x: nat :: sy <= y < ey && sx <= x < ex && Hit(level, rect, x, y)
  }

  /** `Level::check_collision`: scan the index window row by row and stop at the
      first solid tile that overlaps. */
  method CheckCollision(level: Level, rect: Rect) returns (hit: bool)
    requires level.Valid()
    ensures hit == Collides(level, rect)
  {
    var sx, ex := StartIndex(rect.x), EndIndex(rect.x + rect.width, level.width);
    var sy, ey := StartIndex(rect.y), EndIndex(rect.y + rect.height, level.height);
    var y := sy;
    while y < ey
      invariant sy <= y
      invariant forall yy: nat, xx: nat :: sy <= yy < y && sx <= xx < ex ==> !Hit(level, rect, xx, yy)
    {
      var x := sx;
      while x < ex
        invariant sx <= x
        invariant forall yy: nat, xx: nat :: sy <= yy < y && sx <= xx < ex ==> !Hit(level, rect, xx, yy)
        invariant forall xx: nat :: sx <= xx < x ==> !Hit(level, rect, xx, y)
      {
        var tile := GetTile(level, x, y);
        if tile.Some? && tile.value.solid && Intersects(rect, TileRect(x, y)) {
          assert Hit(level, rect, x, y);
          return true;
        }
        x := x + 1;
      }
      y := y + 1;
    }
    return false;
  }

  lemma FloorBelow(v: real, x: nat)
    requires v < x as real + 1.0
    ensures v.Floor <= x
  {
  }

  /** Every tile that overlaps the rectangle lies in the scanned index window. */
  lemma {:induction false} HitInWindow(level: Level, rect: Rect, x: nat, y: nat)
    requires level.Valid() && Hit(level, rect, x, y)
    ensures StartIndex(rect.x) <= x < EndIndex(rect.x + rect.width, level.width)
    ensures StartIndex(rect.y) <= y < EndIndex(rect.y + rect.height, level.height)
  {
    FloorBelow(rect.x / TileSize, x);
    FloorBelow(rect.y / TileSize, y);
    assert x as real < (rect.x + rect.width) / TileSize <= Ceil((rect.x + rect.width) / TileSize) as real;
    assert y as real < (rect.y + rect.height) / TileSize <= Ceil((rect.y + rect.height) / TileSize) as real;
  }

  /** The clamped window loses nothing: the scan collides exactly when some
      solid tile of the grid overlaps the rectangle. */
  lemma {:induction false} CollisionWindowIsExact(level: Level, rect: Rect)
    requires level.Valid()
    ensures Collides(level, rect) <==> exists y: nat, x: nat :: Hit(level, rect, x, y)
  {
    if y: nat, x: nat :| Hit(level, rect, x, y) {
      HitInWindow(level, rect, x, y);
    }
  }

  /** A level without solid tiles never collides. */
  lemma {:induction false} NoSolidNoCollision(level: Level, rect: Rect)
    requires level.Valid()
    requires forall y, x :: 0 <= y < level.height && 0 <= x < level.width ==> !level.tiles[y][x].solid
    ensures !Collides(level, rect)
  {
  }

  // ---- The level-string parser ----------------------------------------------

  /** Index of the first line feed, or the length when there is none. */
  function NewlineIndex(s: string): (i: nat)
    ensures i <= |s|
    ensures i < |s| ==> s[i] == '\n'
    ensures forall j :: 0 <= j < i ==> s[j] != '\n'
  {
    if s == [] || s[0] == '\n' then 0 else 1 + NewlineIndex(s[1..])
  }

  /** Drops one carriage return at the end of a line. */
  function StripCr(l: string): string
  {
    if |l| > 0 && l[|l| - 1] == '\r' then l[..|l| - 1] else l
  }

  /** `str::lines`: split at "\n" or "\r\n"; a final line ending is optional and
      does not produce an empty last line. */
  function Lines(s: string): (ls: seq<string>)
    ensures forall k :: 0 <= k < |ls| ==> '\n' !in ls[k]
    decreases |s|
  {
    if s == [] then []
    else
      var i := NewlineIndex(s);
      if i == |s| then [s] else [StripCr(s[..i])] + Lines(s[i + 1..])
  }

  /** Each line followed by a line feed. */
  function Terminated(ls: seq<string>): string
  {
    if ls == [] then [] else ls[0] + "\n" + Terminated(ls[1..])
  }

  predicate PlainLine(l: string)
  {
    '\n' !in l && (|l| == 0 || l[|l| - 1] != '\r')
  }

  /** `Lines` inverts writing each line with a terminating line feed. */
  lemma {:induction false} LinesOfTerminated(ls: seq<string>)
    requires forall k :: 0 <= k < |ls| ==> PlainLine(ls[k])
    ensures Lines(Terminated(ls)) == ls
    decreases |ls|
  {
    if ls != [] {
      LinesOfTerminated(ls[1..]);
      FirstLine(ls[0], Terminated(ls[1..]));
    }
  }

  /** A plain line followed by a line feed is split off as the first line. */
  lemma FirstLine(l: string, rest: string)
    requires PlainLine(l)
    ensures Lines(l + "\n" + rest) == [l] + Lines(rest)
  {
    var s := l + "\n" + rest;
    assert s[|l|] == '\n';
    assert forall j :: 0 <= j < |l| ==> s[j] == l[j];
    var i := NewlineIndex(s);
    assert i == |l|;
    assert s[..|l|] == l;
    assert s[|l| + 1..] == rest;
  }

  /** UTF-8 length of one scalar value. */
  function CharBytes(c: char): (n: nat)
    ensures 1 <= n <= 4
  {
    if c as int < 0x80 then 1 else if c as int < 0x800 then 2 else if c as int < 0x10000 then 3 else 4
  }

  /** `str::len`: the UTF-8 byte length. */
  function Utf8Len(l: string): (n: nat)
    ensures |l| <= n <= 4 * |l|
  {
    if l == [] then 0 else Utf8Len(l[..|l| - 1]) + CharBytes(l[|l| - 1])
  }

  /** The longest line, in bytes, or 0 for no lines. */
  function MaxWidth(ls: seq<string>): (w: nat)
    ensures forall k :: 0 <= k < |ls| ==> Utf8Len(ls[k]) <= w
    ensures ls != [] ==> exists k :: 0 <= k < |ls| && Utf8Len(ls[k]) == w
    ensures ls == [] ==> w == 0
  {
    if ls == [] then 0
    else
      var w := MaxWidth(ls[..|ls| - 1]);
      var last := Utf8Len(ls[|ls| - 1]);
      if last > w then last else w
  }

  /** The tile type a level character stands for. */
  function CharTile(ch: char): (t: TileType)
    ensures t == Ground <==> ch == '#'
    ensures t == Platform <==> ch == '='
    ensures t == Wall <==> ch == '|'
    ensures t == Destructible <==> ch == 'D'
  {
    match ch
    case '#' => Ground
    case '=' => Platform
    case '|' => Wall
    case 'D' => Destructible
    case _ => Empty
  }

  /** The tile type at row `y`, column `x` of the parsed grid: the character's
      type where the line reaches, `Empty` past its end. */
  function CellType(ls: seq<string>, y: nat, x: nat): TileType
    requires y < |ls|
  {
    if x < |ls[y]| then CharTile(ls[y][x]) else Empty
  }

  /** Row `y` of the parsed grid, `width` tiles wide. */
  function GridRow(ls: seq<string>, y: nat, width: nat): (r: seq<Tile>)
    requires y < |ls|
    ensures |r| == width && forall x :: 0 <= x < width ==> r[x] == NewTile(CellType(ls, y, x))
  {
    seq(width, x requires 0 <= x < width => NewTile(CellType(ls, y, x)))
  }

  /** The spawn point after scanning row `y` (its first |line| characters)
      from `current`: every 'S' overwrites it. */
  function RowSpawn(line: string, y: nat, current: Vec2): Vec2
  {
    if line == [] then current
    else if line[|line| - 1] == 'S' then Vec2((|line| - 1) as real * TileSize, y as real * TileSize)
    else RowSpawn(line[..|line| - 1], y, current)
  }

  /** The spawn point after scanning all the given rows, from (100, 100). */
  function SpawnRows(ls: seq<string>): Vec2
  {
    if ls == [] then Vec2(100.0, 100.0) else RowSpawn(ls[|ls| - 1], |ls| - 1, SpawnRows(ls[..|ls| - 1]))
  }

  /** 'S' stands at row `y`, column `x`. */
  predicate SpawnAt(ls: seq<string>, y: nat, x: nat)
  {
    y < |ls| && x < |ls[y]| && ls[y][x] == 'S'
  }

  /** Index of the last 'S' of a line, or -1. */
  function LastS(line: string): (i: int)
    ensures -1 <= i < |line|
    ensures i >= 0 ==> line[i] == 'S'
    ensures forall x :: i < x < |line| ==> line[x] != 'S'
  {
    if line == [] then -1
    else if line[|line| - 1] == 'S' then |line| - 1
    else LastS(line[..|line| - 1])
  }

  /** Scanning a row leaves the spawn point at its last 'S', if any. */
  lemma {:induction false} RowSpawnIsLast(line: string, y: nat, current: Vec2)
    ensures RowSpawn(line, y, current) ==
      if LastS(line) < 0 then current else Vec2(LastS(line) as real * TileSize, y as real * TileSize)
    decreases |line|
  {
    if line != [] && line[|line| - 1] != 'S' {
      RowSpawnIsLast(line[..|line| - 1], y, current);
    }
  }

  /** 'S' stands at row `y`, column `x`, and no 'S' comes after it in
      row-major order. */
  ghost predicate IsLastSpawn(ls: seq<string>, y: nat, x: nat)
  {
    SpawnAt(ls, y, x) && forall y': nat, x': nat :: SpawnAt(ls, y', x') ==> y' < y || (y' == y && x' <= x)
  }

  /** The spawn point is the last 'S' in row-major order, at (x·32, y·32), or
      (100, 100) when the level has none. */
  lemma {:induction false} SpawnIsLastS(ls: seq<string>)
    ensures (forall y: nat, x: nat :: !SpawnAt(ls, y, x)) ==> SpawnRows(ls) == Vec2(100.0, 100.0)
    ensures (exists y: nat, x: nat :: SpawnAt(ls, y, x)) ==>
      exists y: nat, x: nat :: IsLastSpawn(ls, y, x) && SpawnRows(ls) == Vec2(x as real * TileSize, y as real * TileSize)
    decreases |ls|
  {
    if ls != [] {
      var n := |ls| - 1;
      SpawnIsLastS(ls[..n]);
      SpawnsBefore(ls, ls[..n]);
      RowSpawnIsLast(ls[n], n, SpawnRows(ls[..n]));
      var last := LastS(ls[n]);
      assert SpawnRows(ls) == RowSpawn(ls[n], n, SpawnRows(ls[..n]));
      if last >= 0 {
        SpawnInLastRow(ls);
        assert IsLastSpawn(ls, n, last) && SpawnRows(ls) == Vec2(last as real * TileSize, n as real * TileSize);
      } else if exists y: nat, x: nat :: SpawnAt(ls, y, x) {
        SpawnInEarlierRow(ls, ls[..n]);
      } else {
        assert forall y: nat, x: nat :: !SpawnAt(ls[..n], y, x);
      }
    }
  }

  /** The 'S' markers of all rows but the last are those above the last row. */
  lemma SpawnsBefore(ls: seq<string>, init: seq<string>)
    requires ls != [] && init == ls[..|ls| - 1]
    ensures forall y: nat, x: nat :: SpawnAt(init, y, x) <==> SpawnAt(ls, y, x) && y < |ls| - 1
  {
  }

  /** With an 'S' in the last row, the last of them is the last overall. */
  lemma SpawnInLastRow(ls: seq<string>)
    requires ls != [] && LastS(ls[|ls| - 1]) >= 0
    ensures IsLastSpawn(ls, |ls| - 1, LastS(ls[|ls| - 1]))
  {
    var n, last := |ls| - 1, LastS(ls[|ls| - 1]);
    forall y': nat, x': nat | SpawnAt(ls, y', x') ensures y' < n || (y' == n && x' <= last) { }
  }

  /** Without an 'S' in the last row, the last one overall is the last one
      of the rows above. */
  lemma SpawnInEarlierRow(ls: seq<string>, init: seq<string>)
    requires ls != [] && init == ls[..|ls| - 1] && LastS(ls[|ls| - 1]) < 0
    requires exists y: nat, x: nat :: SpawnAt(ls, y, x)
    requires forall y: nat, x: nat :: SpawnAt(init, y, x) <==> SpawnAt(ls, y, x) && y < |ls| - 1
    requires (exists y: nat, x: nat :: SpawnAt(init, y, x)) ==>
      exists y: nat, x: nat :: IsLastSpawn(init, y, x) &&
        SpawnRows(init) == Vec2(x as real * TileSize, y as real * TileSize)
    ensures exists y: nat, x: nat ::
              IsLastSpawn(ls, y, x) && SpawnRows(init) == Vec2(x as real * TileSize, y as real * TileSize)
  {
    var n := |ls| - 1;
    var y0: nat, x0: nat :| SpawnAt(ls, y0, x0);
    assert y0 < n;
    assert SpawnAt(init, y0, x0);
    var y: nat, x: nat :| IsLastSpawn(init, y, x) &&
      SpawnRows(init) == Vec2(x as real * TileSize, y as real * TileSize);
    forall y': nat, x': nat | SpawnAt(ls, y', x') ensures y' < y || (y' == y && x' <= x) {
      assert y' < n;
      assert SpawnAt(init, y', x');
    }
    assert IsLastSpawn(ls, y, x);
  }

  /** One row of `from_string`'s scan: the tiles of `line`, padded with
      empty tiles to `width`, and the spawn point after its 'S' markers. */
  method ScanRow(line: string, y: nat, width: nat, spawn0: Vec2) returns (row: seq<Tile>, spawn: Vec2)
    requires |line| <= width
    ensures |row| == width
    ensures forall i :: 0 <= i < |line| ==> row[i] == NewTile(CharTile(line[i]))
    ensures forall i :: |line| <= i < width ==> row[i] == NewTile(Empty)
    ensures spawn == RowSpawn(line, y, spawn0)
  {
    row := seq(width, _ => NewTile(Empty));
    spawn := spawn0;
    var x := 0;
    while x < |line|
      invariant 0 <= x <= |line|
      invariant |row| == width
      invariant forall i :: 0 <= i < x ==> row[i] == NewTile(CharTile(line[i]))
      invariant forall i :: x <= i < width ==> row[i] == NewTile(Empty)
      invariant spawn == RowSpawn(line[..x], y, spawn0)
    {
      var ch := line[x];
      if ch == 'S' {
        spawn := Vec2(x as real * TileSize, y as real * TileSize);
      }
      row := row[x := NewTile(CharTile(ch))];
      assert line[..x + 1][..x] == line[..x];
      x := x + 1;
    }
    assert line[..x] == line;
  }

  /** The loop over the lines of `from_string`: every line becomes a row of
      the grid, and the spawn point follows the 'S' markers in row-major
      order. */
  method ScanRows(lines: seq<string>, width: nat) returns (tiles: seq<seq<Tile>>, spawn: Vec2)
    requires forall k :: 0 <= k < |lines| ==> Utf8Len(lines[k]) <= width
    ensures |tiles| == |lines| && forall k :: 0 <= k < |lines| ==> tiles[k] == GridRow(lines, k, width)
    ensures spawn == SpawnRows(lines)
  {
    tiles := seq(|lines|, _ => seq(width, _ => NewTile(Empty)));
    spawn := Vec2(100.0, 100.0);
    var y := 0;
    while y < |lines|
      invariant 0 <= y <= |lines| && |tiles| == |lines|
      invariant forall k :: 0 <= k < y ==> tiles[k] == GridRow(lines, k, width)
      invariant spawn == SpawnRows(lines[..y])
    {
      var line := lines[y];
      assert |line| <= Utf8Len(line) <= width;
      assert lines[..y + 1][..y] == lines[..y];
      var row;
      row, spawn := ScanRow(line, y, width, spawn);
      assert row == GridRow(lines, y, width);
      tiles := tiles[y := row];
      y := y + 1;
    }
    assert lines[..y] == lines;
  }

  /** `Level::from_string`: one row per line, as wide as the longest line;
      tiles from the characters, the spawn point from the last 'S'. Building
      markers ('B') and the procedural sky and clouds are cosmetic and not part
      of the result. */
  method FromString(s: string) returns (level: Level)
    ensures level.Valid()
    ensures level.height == |Lines(s)| && level.width == MaxWidth(Lines(s))
    ensures forall y, x :: 0 <= y < level.height && 0 <= x < level.width ==>
              level.tiles[y][x] == NewTile(CellType(Lines(s), y, x))
    ensures level.spawnPoint == SpawnRows(Lines(s))
    ensures level.name == "Custom Level" && level.description == "Complete the objective"
    ensures level.winCondition == DefeatAllEnemies && level.collectibles == []
    ensures level.goalPosition == None && level.timeLimit == None && level.bossSpawn == None
  {
    var lines := Lines(s);
    var width := MaxWidth(lines);
    var tiles, spawn := ScanRows(lines, width);
    level := Level(tiles, width, |lines|, spawn, "Custom Level", "Complete the objective",
                   DefeatAllEnemies, None, None, [], None);
  }

  /** The `ground_y` that `from_string` computes as written: `(height - 3)` on
      `usize`, which overflows (a panic in debug builds) for fewer than three
      lines. The value is never used afterwards. */
  function GroundYAsWritten(height: nat): (r: Option<real>)
    ensures r.Some? <==> height >= 3
  {
    if height < 3 then None else Some((height - 3) as real * TileSize)
  }

  /** The ground line as evidently intended: the top of the last three rows,
      or the top of the level when it has fewer than three rows. It is
      defined for every height and always lies within the level. */
  function GroundY(height: nat): (r: real)
    ensures 0.0 <= r <= height as real * TileSize
    ensures height >= 3 ==> r + 3.0 * TileSize == height as real * TileSize
    ensures height < 3 ==> r == 0.0
  {
    if height < 3 then 0.0 else (height - 3) as real * TileSize
  }

  /** The corrected ground line agrees with the one written wherever the
      written one does not overflow. */
  lemma GroundYAgrees(height: nat)
    ensures GroundYAsWritten(height).Some? ==> GroundYAsWritten(height) == Some(GroundY(height))
    ensures GroundYAsWritten(height).None? ==> height < 3 && GroundY(height) == 0.0
  {
  }

  /** A two-line level string reaches the overflow, although `FromString`
      (which drops the unused value) parses it into a 2-row grid. */
  lemma ShortLevelOverflows()
    ensures Lines("S\n##") == ["S", "##"]
    ensures GroundYAsWritten(|Lines("S\n##")|) == None
  {
    var s := "S\n##";
    assert NewlineIndex(s) == 1;
    assert s[..1] == "S" && s[2..] == "##";
    assert NewlineIndex("##") == 2;
  }
}
