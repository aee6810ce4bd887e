/** The day/night clock (game/day_night_cycle.rs): a 120-second cycle of a
    60-second day and a 60-second night, the progress through the current
    phase, the ambient light colour, colour interpolation and the layout of
    the sky gradient's bands. The sky palettes themselves are not modelled. */
module DayNightCycles {
  import opened Core
  import opened Arith

  const DayLength: real := 60.0

  /** The clock after `dt` more seconds: the cycle length is subtracted at
      most once. */
  function Advanced(time: real, cycle: real, dt: real): (t: real)
    ensures t == time + dt || t == time + dt - cycle
    ensures 0.0 <= time < cycle && 0.0 <= dt <= cycle ==> 0.0 <= t < cycle
  {
    if time + dt >= cycle then time + dt - cycle else time + dt
  }

  /** Progress through the current phase, measured from the start of the day
      (time 0) or of the night (time 60), in units of one phase. */
  function PhaseProgress(time: real, isDay: bool): (p: real)
    ensures p * DayLength + (if isDay then 0.0 else DayLength) == time
    ensures isDay && 0.0 <= time < DayLength ==> 0.0 <= p < 1.0
    ensures !isDay && DayLength <= time < 2.0 * DayLength ==> 0.0 <= p < 1.0
  {
    if isDay then time / DayLength else (time - DayLength) / DayLength
  }

  const Dawn: Color := Color(150, 120, 180, 255)
  const Daylight: Color := Color(255, 255, 255, 255)
  const Sunset: Color := Color(255, 180, 120, 255)
  const Evening: Color := Color(100, 100, 150, 255)
  const Night: Color := Color(50, 50, 100, 255)

  /** The ambient light: three bands by day, two by night, always opaque. */
  function AmbientLight(isDay: bool, phase: real): (c: Color)
    ensures c.a == 255
    ensures isDay ==> c in {Dawn, Daylight, Sunset}
    ensures !isDay ==> c in {Evening, Night}
  {
    if isDay then
      if phase < 0.25 then Dawn else if phase < 0.75 then Daylight else Sunset
    else
      if phase < 0.5 then Evening else Night
  }

  /** Over one cycle, the ambient light is dawn for the first 15 seconds,
      daylight until 45, sunset until 60, evening until 90 and night until
      120, whenever the day flag agrees with the clock as `update` leaves it. */
  lemma AmbientLightOverCycle(time: real)
    requires 0.0 <= time < 2.0 * DayLength
    ensures var c := AmbientLight(time < DayLength, PhaseProgress(time, time < DayLength));
            (c == Dawn <==> time < 15.0) &&
            (c == Daylight <==> 15.0 <= time < 45.0) &&
            (c == Sunset <==> 45.0 <= time < 60.0) &&
            (c == Evening <==> 60.0 <= time < 90.0) &&
            (c == Night <==> 90.0 <= time)
  {
    var p := PhaseProgress(time, time < DayLength);
    assert p * 60.0 + (if time < DayLength then 0.0 else 60.0) == time;
  }

  /** One colour channel of the blend, cast back to `u8`. */
  function Blend(from: u8, to: u8, t: real): (v: u8)
    requires 0.0 <= t <= 1.0
    ensures from <= to ==> from <= v <= to
    ensures to <= from ==> to <= v <= from
    ensures t == 0.0 ==> v == from
    ensures t == 1.0 ==> v == to
  {
    var x := Lerp(from as real, to as real, t);
    LerpBetween(from as real, to as real, t);
    CastBetween(x, from, to);
    CastU8(x)
  }

  /** A value between two channel values is cast to a channel between
      them. */
  lemma CastBetween(x: real, from: u8, to: u8)
    requires from <= to ==> from as real <= x <= to as real
    requires to <= from ==> to as real <= x <= from as real
    ensures from <= to ==> from <= CastU8(x) <= to
    ensures to <= from ==> to <= CastU8(x) <= from
  {
    CastU8Within(x, from, to);
    CastU8Within(x, to, from);
  }

  /** The blend of two values in floating point, `a * (1 - t) + b * t`. */
  function Lerp(a: real, b: real, t: real): real
  {
    a * (1.0 - t) + b * t
  }

  /** The blend lies between its two ends and meets them at `t = 0` and
      `t = 1`. */
  lemma LerpBetween(a: real, b: real, t: real)
    requires 0.0 <= t <= 1.0
    ensures a <= b ==> a <= Lerp(a, b, t) <= b
    ensures b <= a ==> b <= Lerp(a, b, t) <= a
    ensures t == 0.0 ==> Lerp(a, b, t) == a
    ensures t == 1.0 ==> Lerp(a, b, t) == b
  {
    BlendBetween(a, b, t);
    BlendEnds(a, b, t);
  }

  /** A convex combination of two values lies between them. */
  lemma BlendBetween(a: real, b: real, t: real)
    requires 0.0 <= t <= 1.0
    ensures a <= b ==> a <= a * (1.0 - t) + b * t <= b
    ensures b <= a ==> b <= a * (1.0 - t) + b * t <= a
  {
    assert a * (1.0 - t) + b * t == a - a * t + b * t;
    if a <= b {
      ScaleOrdered(a, b, t);
      assert a * t <= b * t && b * t - a * t <= b - a;
    } else {
      ScaleOrdered(b, a, t);
      assert b * t <= a * t && a * t - b * t <= a - b;
    }
  }

  /** Scaling by a factor in [0, 1] keeps two values in order and does not
      widen the gap between them. */
  lemma ScaleOrdered(a: real, b: real, t: real)
    requires a <= b && 0.0 <= t <= 1.0
    ensures a * t <= b * t
    ensures b * t - a * t <= b - a
  {
    MulBounds(b - a, t);
    assert 0.0 <= (b - a) * t <= b - a;
    assert (b - a) * t == b * t - a * t;
  }

  /** At `t = 0` the blend is its start, at `t = 1` its end. */
  lemma BlendEnds(a: real, b: real, t: real)
    ensures t == 0.0 ==> a * (1.0 - t) + b * t == a
    ensures t == 1.0 ==> a * (1.0 - t) + b * t == b
  {
    if t == 0.0 {
      assert a * (1.0 - t) == a && b * t == 0.0;
    } else if t == 1.0 {
      assert a * (1.0 - t) == 0.0 && b * t == b;
    }
  }

  /** `interpolate_color`: `t` is clamped to [0, 1], each channel is blended
      between the two colours, and the result is always opaque. */
  function InterpolateColor(from: Color, to: Color, t: real): (c: Color)
    ensures c.a == 255
    ensures t <= 0.0 ==> c == from.(a := 255)
    ensures t >= 1.0 ==> c == to.(a := 255)
    ensures (from.r <= to.r ==> from.r <= c.r <= to.r) && (to.r <= from.r ==> to.r <= c.r <= from.r)
    ensures (from.g <= to.g ==> from.g <= c.g <= to.g) && (to.g <= from.g ==> to.g <= c.g <= from.g)
    ensures (from.b <= to.b ==> from.b <= c.b <= to.b) && (to.b <= from.b ==> to.b <= c.b <= from.b)
  {
    var t := Clamp(t, 0.0, 1.0);
    Color(Blend(from.r, to.r, t), Blend(from.g, to.g, t), Blend(from.b, to.b, t), 255)
  }

  const Bands: nat := 100

  /** The sky gradient's band `i`: a full-width strip one hundredth of the
      height tall, starting `i` band heights down. */
  function Band(i: nat, width: real, height: real): (r: Rect)
  {
    Rect(0.0, i as real * (height / Bands as real), width, height / Bands as real)
  }

  class DayNightCycle {
    var time: real
    var cycleDuration: real
    var isDay: bool

    /** `DayNightCycle::new`: noon of the first day of a 120-second cycle. */
    constructor ()
      ensures time == 30.0 && cycleDuration == 120.0 && isDay
    {
      time := 30.0;
      cycleDuration := 120.0;
      isDay := true;
    }

    /** `update`: the clock advances, wrapping at the cycle length, and the
        day flag is recomputed from the clock. */
    method Update(dt: real)
      modifies this
      ensures time == Advanced(old(time), old(cycleDuration), dt)
      ensures isDay <==> time < DayLength
      ensures cycleDuration == old(cycleDuration)
    {
      time := time + dt;
      if time >= cycleDuration {
        time := time - cycleDuration;
      }
      isDay := time < DayLength;
    }

    function GetPhaseProgress(): (p: real)
      reads this
      ensures p == PhaseProgress(time, isDay)
    {
      PhaseProgress(time, isDay)
    }

    function GetAmbientLight(): (c: Color)
      reads this
      ensures c == AmbientLight(isDay, PhaseProgress(time, isDay))
    {
      AmbientLight(isDay, GetPhaseProgress())
    }

    /** The band layout of `generate_sky_gradient`: 100 full-width bands,
        band `i` at `y = i * height / 100`. */
    method SkyBands(width: real, height: real) returns (bands: seq<Rect>)
      ensures |bands| == Bands
      ensures forall i: nat :: i < |bands| ==> bands[i] == Band(i, width, height)
    {
      var bandHeight := height / Bands as real;
      bands := [];
      var i: nat := 0;
      while i < Bands
        invariant i <= Bands && |bands| == i
        invariant forall j: nat :: j < i ==> bands[j] == Band(j, width, height)
      {
        bands := bands + [Rect(0.0, i as real * bandHeight, width, bandHeight)];
        i := i + 1;
      }
    }
  }

  /** A clock that starts within the cycle stays within it, and the day flag
      tracks the first half of the cycle, for any frame time up to a cycle. */
  method UpdateKeepsCycle(c: DayNightCycle, dt: real)
    requires c.cycleDuration == 120.0 && 0.0 <= c.time < 120.0 && 0.0 <= dt <= 120.0
    modifies c
    ensures 0.0 <= c.time < 120.0
    ensures c.isDay <==> c.time < DayLength
    ensures 0.0 <= c.GetPhaseProgress() < 1.0
  {
    c.Update(dt);
  }

  /** The bands tile the sky without gaps or overlaps: each starts where the
      previous one ends, and the last ends at the full height. */
  lemma BandsTile(width: real, height: real, i: nat)
    requires i < Bands
    ensures Band(i, width, height).y + Band(i, width, height).height ==
            if i + 1 < Bands then Band(i + 1, width, height).y else height
    ensures Band(0, width, height).y == 0.0
  {
    var h := height / Bands as real;
    assert i as real * h + h == (i + 1) as real * h;
    assert 100.0 * h == height;
  }
}
