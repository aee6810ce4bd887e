/** Value types shared by the whole engine core: 2-D vectors, axis-aligned
    rectangles, colours, transforms and sprites, together with the numeric
    conversions (floor, ceiling, rounding, saturating casts) that the game
    code performs on `f32` values. `f32` is modelled as `real` throughout. */
module Core {

  datatype Option<+T> = None | Some(value: T)

  /** glam's `Vec2`. */
  datatype Vec2 = Vec2(x: real, y: real)
  {
    function Add(o: Vec2): Vec2 { Vec2(x + o.x, y + o.y) }
    function Sub(o: Vec2): Vec2 { Vec2(x - o.x, y - o.y) }
    function Scale(k: real): Vec2 { Vec2(x * k, y * k) }
    function LengthSquared(): real { x * x + y * y }
  }

  const Zero: Vec2 := Vec2(0.0, 0.0)

  /** glam's `normalize_or_zero`, given the vector's length `len`: the vector
      scaled by `1 / len` when the length is positive, the zero vector otherwise.
      The Euclidean length itself cannot be computed over `real`, so every caller
      passes it in (see `Length` parameters elsewhere in the model). */
  function NormalizeOrZero(v: Vec2, len: real): (r: Vec2)
    ensures len <= 0.0 ==> r == Zero
    ensures len > 0.0 ==> r.Scale(len) == v
  {
    if len > 0.0 then Vec2(v.x / len, v.y / len) else Zero
  }

  /** Squared distance between two points. */
  function DistanceSquared(a: Vec2, b: Vec2): real
  {
    b.Sub(a).LengthSquared()
  }

  /** The engine's `Rect`: top-left corner plus width and height. */
  datatype Rect = Rect(x: real, y: real, width: real, height: real)

  /** `Rect::intersects` lives in `engine/core/math.rs`, which is not part of
      this model; this is the standard strict overlap test of two axis-aligned
      rectangles: their projections overlap on both axes. */
  predicate Intersects(a: Rect, b: Rect)
  {
    a.x < b.x + b.width && b.x < a.x + a.width &&
    a.y < b.y + b.height && b.y < a.y + a.height
  }

  /** The rectangle of the given size centred on `pos`, as every system builds
      it (`pos - size / 2`, then the size). */
  function CenteredRect(pos: Vec2, size: Vec2): (r: Rect)
    ensures r.x + r.width / 2.0 == pos.x && r.y + r.height / 2.0 == pos.y
    ensures r.width == size.x && r.height == size.y
  {
    Rect(pos.x - size.x / 2.0, pos.y - size.y / 2.0, size.x, size.y)
  }

  newtype u8 = x: int | 0 <= x < 256

  datatype Color = Color(r: u8, g: u8, b: u8, a: u8)

  const White: Color := Color(255, 255, 255, 255)

  /** `f32::max` and `f32::min` (NaN is not modelled). */
  function Max(a: real, b: real): (r: real)
    ensures r >= a && r >= b && (r == a || r == b)
  {
    if a >= b then a else b
  }

  function Min(a: real, b: real): (r: real)
    ensures r <= a && r <= b && (r == a || r == b)
  {
    if a <= b then a else b
  }

  /** `f32::clamp`, which panics unless `lo <= hi`. */
  function Clamp(x: real, lo: real, hi: real): (r: real)
    requires lo <= hi
    ensures lo <= r <= hi
    ensures lo <= x <= hi ==> r == x
    ensures x < lo ==> r == lo
    ensures x > hi ==> r == hi
  {
    if x < lo then lo else if x > hi then hi else x
  }

  function Abs(x: real): (r: real)
    ensures r >= 0.0 && (r == x || r == -x)
  {
    if x < 0.0 then -x else x
  }

  /** `f32::ceil` (as an integer). */
  function Ceil(x: real): (r: int)
    ensures x <= r as real < x + 1.0
  {
    -((-x).Floor)
  }

  /** `f32::round`: halves are rounded away from zero. */
  function Round(x: real): (r: int)
    ensures x - 0.5 <= r as real <= x + 0.5
    ensures r as real - x == 0.5 ==> x > 0.0
    ensures x - r as real == 0.5 ==> x < 0.0
  {
    if x >= 0.0 then (x + 0.5).Floor else -((0.5 - x).Floor)
  }

  /** Rust's saturating `f32 as usize` cast: truncation toward zero, with every
      negative value sent to 0 (the upper saturation bound lies far above any
      tile index or count that arises here and is not modelled). */
  function CastUsize(x: real): (r: nat)
    ensures x >= 0.0 ==> r as real <= x < r as real + 1.0
    ensures x < 1.0 ==> r == 0
  {
    if x < 0.0 then 0 else x.Floor
  }

  const U32Max: nat := 4294967295

  /** Rust's saturating `f32 as u32` cast. */
  function CastU32(x: real): (r: nat)
    ensures r <= U32Max
    ensures 0.0 <= x < U32Max as real ==> r as real <= x < r as real + 1.0
    ensures x < 1.0 ==> r == 0
  {
    if x < 0.0 then 0 else if x >= U32Max as real then U32Max else x.Floor
  }

  /** Rust's saturating `f32 as u8` cast. */
  function CastU8(x: real): (r: u8)
    ensures 0.0 <= x < 255.0 ==> r as real <= x < r as real + 1.0
    ensures x < 1.0 ==> r == 0
    ensures x >= 255.0 ==> r == 255
  {
    if x < 0.0 then 0 else if x >= 255.0 then 255 else x.Floor as u8
  }

  /** The `u8` cast keeps a value between two `u8` bounds: truncation never
      drops below a whole lower bound, and saturation never exceeds an upper
      one. */
  lemma CastU8Within(x: real, lo: u8, hi: u8)
    ensures lo as real <= x ==> lo <= CastU8(x)
    ensures x <= hi as real ==> CastU8(x) <= hi
  {
    if 0.0 <= x < 255.0 {
      var f := x.Floor;
      assert f as real <= x < f as real + 1.0;
      if lo as real <= x {
        assert (lo as int) < f + 1;
      }
    }
  }

  /** `f32::consts::PI`, to the precision of the constant. */
  const Pi: real := 3.14159265358979

  /** `f32::to_radians`. */
  function ToRadians(deg: real): (r: real)
    ensures r * 180.0 == deg * Pi
    ensures deg == 0.0 ==> r == 0.0
  {
    deg * Pi / 180.0
  }

  /** The engine's `Transform` (a plain record; `to_matrix` is rendering glue). */
  datatype Transform = Transform(position: Vec2, rotation: real, scale: Vec2)

  /** `Transform::new`. */
  function NewTransform(position: Vec2): (t: Transform)
    ensures t.position == position && t.rotation == 0.0 && t.scale == Vec2(1.0, 1.0)
  {
    Transform(position, 0.0, Vec2(1.0, 1.0))
  }

  /** The renderable component. */
  datatype Sprite = Sprite(size: Vec2, color: Color, sourceRect: Option<Rect>)

  function NewSprite(size: Vec2, color: Color): (s: Sprite)
    ensures s.size == size && s.color == color && s.sourceRect == None
  {
    Sprite(size, color, None)
  }

  /** Decimal rendering of a natural number, as `format!("{}", n)` prints it. */
  function NatToString(n: nat): (s: string)
    ensures |s| >= 1
    ensures forall i :: 0 <= i < |s| ==> '0' <= s[i] <= '9'
    decreases n
  {
    if n < 10 then [DigitChar(n)] else NatToString(n / 10) + [DigitChar(n % 10)]
  }

  function DigitChar(d: nat): (c: char)
    requires d < 10
    ensures '0' <= c <= '9' && (c as int) - ('0' as int) == d
  {
    ('0' as int + d) as char
  }

  /** Value of a string of decimal digits; the inverse of `NatToString`. */
  function DigitsValue(s: string): nat
    requires forall i :: 0 <= i < |s| ==> '0' <= s[i] <= '9'
  {
    if s == [] then 0 else DigitsValue(s[..|s| - 1]) * 10 + ((s[|s| - 1] as int) - ('0' as int))
  }

  lemma {:induction false} NatToStringRoundTrip(n: nat)
    ensures DigitsValue(NatToString(n)) == n
    decreases n
  {
    if n >= 10 {
      var s := NatToString(n);
      assert s[..|s| - 1] == NatToString(n / 10);
      NatToStringRoundTrip(n / 10);
    }
  }
}
