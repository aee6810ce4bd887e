/** The on-screen clock (engine/ui/clock.rs): the day/night cycle's time read
    as a 24-hour `HH:MM` clock, tinted by the ambient light, with an icon for
    the part of the day. */
module Clocks {
  import opened Core
  import opened Arith
  import opened Anchors
  import opened UiComponents
  import opened DayNightCycles

  /** The cycle's time as a fractional hour of a 24-hour day. */
  function HourFloat(time: real, cycle: real): (h: real)
    requires cycle != 0.0
  {
    time / cycle * 24.0
  }

  /** `f32::trunc`: the integer part, rounded toward zero. */
  function Trunc(x: real): (n: int)
    ensures 0.0 <= x ==> n == x.Floor
    ensures x < 0.0 ==> x < n as real + 1.0 && n as real <= 0.0
  {
    if x >= 0.0 then x.Floor else -((-x).Floor)
  }

  /** `f32::fract`: what truncation leaves. */
  function Fract(x: real): (f: real)
    ensures -1.0 < f < 1.0
    ensures 0.0 <= x ==> 0.0 <= f
  {
    x - Trunc(x) as real
  }

  /** The hour shown: the whole hours, saturated into `u32`, modulo 24. */
  function Hours(time: real, cycle: real): (hours: nat)
    requires cycle != 0.0
    ensures hours < 24
  {
    CastU32(HourFloat(time, cycle)) % 24
  }

  /** The minute shown: the fraction of the hour in whole minutes, modulo 60. */
  function Minutes(time: real, cycle: real): (minutes: nat)
    requires cycle != 0.0
    ensures minutes < 60
  {
    CastU32(Fract(HourFloat(time, cycle)) * 60.0) % 60
  }

  /** Removing a whole number from a real removes it from its floor. */
  lemma FloorShift(x: real, n: int)
    ensures (x - n as real).Floor == x.Floor - n
  {
    var k := x.Floor - n;
    assert k as real <= x - n as real < k as real + 1.0;
  }

  /** Within one cycle the clock reads the elapsed fraction of the cycle in
      whole minutes of a 24-hour day: `hours * 60 + minutes` is the floor of
      `time / cycle * 1440`, and both fields are the natural ones with no
      wrap-around. */
  lemma {:induction false} ClockReading(time: real, cycle: real)
    requires 0.0 < cycle && 0.0 <= time < cycle
    ensures Hours(time, cycle) == HourFloat(time, cycle).Floor
    ensures Hours(time, cycle) * 60 + Minutes(time, cycle) == (time / cycle * 1440.0).Floor
  {
    var q := time / cycle;
    UnitFraction(time, cycle);
    var h := HourFloat(time, cycle);
    HoursOfDay(q, h);
    HourAndMinutes(h);
    assert Hours(time, cycle) == CastU32(h) % 24 == h.Floor;
    assert Minutes(time, cycle) == CastU32(Fract(h) * 60.0) % 60 == (h * 60.0).Floor - h.Floor * 60;
  }

  /** A fraction of a day, in hours and in minutes. */
  lemma HoursOfDay(q: real, h: real)
    requires 0.0 <= q < 1.0 && h == q * 24.0
    ensures 0.0 <= h < 24.0 && h * 60.0 == q * 1440.0
  {
  }

  /** The elapsed part of a cycle is a fraction below one. */
  lemma UnitFraction(time: real, cycle: real)
    requires 0.0 < cycle && 0.0 <= time < cycle
    ensures 0.0 <= time / cycle < 1.0
  {
    assert time / cycle * cycle == time;
    FractionOf(time / cycle, time, cycle);
  }

  /** A factor that scales a positive length to a shorter one is a fraction. */
  lemma FractionOf(q: real, part: real, whole: real)
    requires 0.0 < whole && 0.0 <= part < whole && q * whole == part
    ensures 0.0 <= q < 1.0
  {
    MulCancel(q, 1.0, whole);
    MulCancel(0.0, q, whole);
  }

  /** An hour of the day splits into its whole hours and the whole minutes
      of its fraction, neither saturating. */
  lemma HourAndMinutes(h: real)
    requires 0.0 <= h < 24.0
    ensures CastU32(h) == h.Floor && 0 <= h.Floor < 24
    ensures CastU32(Fract(h) * 60.0) == (h * 60.0).Floor - h.Floor * 60
    ensures 0 <= (h * 60.0).Floor - h.Floor * 60 < 60
  {
    var hh := h.Floor;
    var f := Fract(h) * 60.0;
    assert f == h * 60.0 - (hh * 60) as real;
    FloorShift(h * 60.0, hh * 60);
    assert 0.0 <= f < 60.0;
    assert CastU32(f) == f.Floor;
  }

  /** `{:02}` for a number below 100. */
  function TwoDigits(n: nat): (s: string)
    requires n < 100
    ensures |s| == 2 && '0' <= s[0] <= '9' && '0' <= s[1] <= '9'
    ensures DigitsValue(s) == n
  {
    var s := [DigitChar(n / 10), DigitChar(n % 10)];
    assert s[..|s| - 1] == [s[0]] && [s[0]][..0] == [];
    assert DigitsValue([s[0]]) == n / 10;
    s
  }

  /** `format!("{:02}:{:02}", hours, minutes)`. */
  function TimeText(hours: nat, minutes: nat): (s: string)
    requires hours < 100 && minutes < 100
    ensures |s| == 5 && s[2] == ':'
    ensures forall i :: 0 <= i < 5 && i != 2 ==> '0' <= s[i] <= '9'
    ensures DigitsValue(s[..2]) == hours && DigitsValue(s[3..]) == minutes
  {
    var s := TwoDigits(hours) + ":" + TwoDigits(minutes);
    assert s[..2] == TwoDigits(hours) && s[3..] == TwoDigits(minutes);
    s
  }

  /** The panel's background: the ambient light darkened, half transparent. */
  function BackgroundTint(ambient: Color): (c: Color)
    ensures c.a == 150
    ensures c.r as real <= ambient.r as real * 0.2 && c.g as real <= ambient.g as real * 0.2
    ensures c.b as real <= ambient.b as real * 0.3
  {
    Color(CastU8(ambient.r as real * 0.2), CastU8(ambient.g as real * 0.2), CastU8(ambient.b as real * 0.3), 150)
  }

  const DayText: Color := Color(255, 220, 100, 255)
  const NightText: Color := Color(150, 150, 255, 255)

  function TextColor(isDay: bool): (c: Color)
    ensures c == DayText <==> isDay
    ensures c == NightText <==> !isDay
  {
    if isDay then DayText else NightText
  }

  datatype Icon = Sunrise | Sun | Sundown | Moon | Star

  /** `get_time_icon`'s match on the hour. */
  function TimeIcon(hour: nat): (i: Icon)
  {
    if 6 <= hour <= 8 then Sunrise
    else if 9 <= hour <= 16 then Sun
    else if 17 <= hour <= 19 then Sundown
    else if 20 <= hour <= 23 || hour <= 5 then Moon
    else Star
  }

  /** The four bands cover the whole day, so the catch-all star is never
      shown for a clock hour. */
  lemma IconBands(time: real, cycle: real)
    requires cycle != 0.0
    ensures var i := TimeIcon(Hours(time, cycle)); var h := Hours(time, cycle);
            i != Star &&
            (i == Sunrise <==> 6 <= h <= 8) &&
            (i == Sun <==> 9 <= h <= 16) &&
            (i == Sundown <==> 17 <= h <= 19) &&
            (i == Moon <==> h <= 5 || 20 <= h)
  {
  }

  class ClockWidget {
    var position: Vec2
    var size: Vec2
    var background: Panel
    var timeText: Text
    var visible: bool
    var anchor: Anchor

    /** The text sits inside the panel at a fixed inset. */
    ghost predicate Valid()
      reads this
    {
      background.position == position && timeText.position == position.Add(TextInset) &&
      background.visible == visible && timeText.visible == visible
    }

    /** `ClockWidget::new`: a 120×40 dark panel reading 00:00. */
    constructor (position: Vec2)
      ensures Valid() && this.position == position && size == Vec2(120.0, 40.0)
      ensures background.size == size && background.backgroundColor == Color(0, 0, 0, 150)
      ensures background.borderColor == Color(200, 200, 200, 100)
      ensures timeText.content == "00:00" && timeText.size == 20 && visible && anchor == TopCenter
    {
      this.position := position;
      size := Vec2(120.0, 40.0);
      var panel := NewPanel(position, Vec2(120.0, 40.0));
      background := panel.(backgroundColor := Color(0, 0, 0, 150), borderColor := Color(200, 200, 200, 100));
      var text := NewText(position.Add(TextInset), "00:00");
      timeText := text.(size := 20);
      visible := true;
      anchor := TopCenter;
    }

    /** `update_time`: the text shows the clock, the panel takes the ambient
        tint, and the text colour follows the day flag. */
    method UpdateTime(cycle: DayNightCycle)
      requires cycle.cycleDuration != 0.0
      modifies this
      ensures timeText == old(timeText).(content := TimeText(Hours(cycle.time, cycle.cycleDuration),
                                                             Minutes(cycle.time, cycle.cycleDuration)),
                                         color := TextColor(cycle.isDay))
      ensures background == old(background).(backgroundColor := BackgroundTint(cycle.GetAmbientLight()))
      ensures position == old(position) && size == old(size) && visible == old(visible) && anchor == old(anchor)
    {
      var hours := Hours(cycle.time, cycle.cycleDuration);
      var minutes := Minutes(cycle.time, cycle.cycleDuration);
      timeText := timeText.(content := TimeText(hours, minutes));
      var ambient := cycle.GetAmbientLight();
      background := background.(backgroundColor := BackgroundTint(ambient));
      if cycle.isDay {
        timeText := timeText.(color := DayText);
      } else {
        timeText := timeText.(color := NightText);
      }
    }

    function GetTimeIcon(cycle: DayNightCycle): (i: Icon)
      reads cycle
      requires cycle.cycleDuration != 0.0
      ensures i != Star
    {
      IconBands(cycle.time, cycle.cycleDuration);
      TimeIcon(Hours(cycle.time, cycle.cycleDuration))
    }

    function GetPosition(): (p: Vec2)
      reads this
      ensures p == position
    {
      position
    }

    /** `set_position`: the panel moves with the widget and the text keeps
        its inset. */
    method SetPosition(p: Vec2)
      modifies this
      ensures position == p && background == old(background).(position := p)
      ensures timeText == old(timeText).(position := p.Add(TextInset))
      ensures size == old(size) && visible == old(visible) && anchor == old(anchor)
      ensures old(Valid()) ==> Valid()
    {
      position := p;
      background := background.(position := p);
      timeText := timeText.(position := p.Add(TextInset));
    }

    function IsVisible(): (v: bool)
      reads this
      ensures v == visible
    {
      visible
    }

    /** `set_visible`: the panel and the text follow the widget. */
    method SetVisible(v: bool)
      modifies this
      ensures visible == v && background == old(background).(visible := v)
      ensures timeText == old(timeText).(visible := v)
      ensures position == old(position) && size == old(size) && anchor == old(anchor)
      ensures old(Valid()) ==> Valid()
    {
      visible := v;
      background := background.(visible := v);
      timeText := timeText.(visible := v);
    }
  }

  /** Where the text sits inside the clock's panel. */
  const TextInset: Vec2 := Vec2(10.0, 10.0)

  /** A fresh day/night cycle starts at time 30 of a 120-second cycle, which
      the clock shows as 06:00, in the day colour, with the sunrise icon.
      (The cycle's constructor, `src/game/day_night_cycle.rs:13`, calls this
      moment noon; the clock widget reads it as six in the morning.) */
  method ClockAtStart(clock: ClockWidget, cycle: DayNightCycle)
    requires cycle.time == 30.0 && cycle.cycleDuration == 120.0 && cycle.isDay
    modifies clock
    ensures clock.timeText.content == "06:00" && clock.timeText.color == DayText
    ensures clock.GetTimeIcon(cycle) == Sunrise
  {
    assert Hours(30.0, 120.0) == 6 && Minutes(30.0, 120.0) == 0 by {
      ClockReading(30.0, 120.0);
    }
    clock.UpdateTime(cycle);
  }
}
