/** The debug overlay (engine/ui/debug.rs): a hidden-by-default panel of six
    text lines showing the frame rate with its moving average over the last
    60 frames, the frame time, the entity count, the frame number and the
    player's position and velocity. */
module DebugOverlays {
  import opened Core
  import opened Arith
  import opened Anchors
  import opened UiComponents
  import opened Formatting

  /** How many frame-rate samples the moving average covers. */
  const WindowSize: nat := 60
  /** The overlay's text lines. */
  const LineCount: nat := 6
  const OverlayGreen: Color := Color(0, 255, 0, 255)

  /** Where text line `i` sits: inset by 10 and 20 units per line. */
  function LineAt(position: Vec2, i: nat): (p: Vec2)
    ensures p.x == position.x + 10.0
    ensures p.y == position.y + 10.0 + 20.0 * i as real
  {
    position.Add(Vec2(10.0, 10.0 + i as real * 20.0))
  }

  /** Text line `i` as `new` creates it: empty, small and green. */
  function StatsLine(position: Vec2, i: nat): (t: Text)
    ensures t.position == LineAt(position, i) && t.content == "" && t.size == 14 && t.color == OverlayGreen
    ensures t.visible
  {
    NewText(LineAt(position, i), "").(size := 14, color := OverlayGreen)
  }

  /** The frames per second of a frame that took `dt` seconds, 0 for a frame
      that took no time. */
  function Fps(dt: real): (f: real)
    ensures dt > 0.0 ==> f * dt == 1.0 && f > 0.0
    ensures dt <= 0.0 ==> f == 0.0
  {
    if dt > 0.0 then 1.0 / dt else 0.0
  }

  /** The sample window after one more sample: appended at the back, with
      the oldest sample dropped once there are more than 60. */
  function PushSample(window: seq<real>, x: real): (w: seq<real>)
    ensures |window| < WindowSize ==> w == window + [x]
    ensures |window| <= WindowSize ==> |w| == if |window| < WindowSize then |window| + 1 else WindowSize
    ensures 0 < |w| <= |window| + 1 && w[|w| - 1] == x
    ensures w == (window + [x])[|window| + 1 - |w|..]
  {
    var s := window + [x];
    if |s| > WindowSize then s[1..] else s
  }

  function Sum(s: seq<real>): (r: real)
  {
    if s == [] then 0.0 else Sum(s[..|s| - 1]) + s[|s| - 1]
  }

  /** The mean of the samples, 0 for none. */
  function Mean(s: seq<real>): (m: real)
    ensures s != [] ==> m * |s| as real == Sum(s)
    ensures s == [] ==> m == 0.0
  {
    if s == [] then 0.0 else Sum(s) / |s| as real
  }

  /** The sum of `n` samples lies between `n` times their bounds. */
  lemma {:induction false} SumBounds(s: seq<real>, lo: real, hi: real)
    requires forall i :: 0 <= i < |s| ==> lo <= s[i] <= hi
    ensures |s| as real * lo <= Sum(s) <= |s| as real * hi
  {
    if s != [] {
      SumBounds(s[..|s| - 1], lo, hi);
      assert (|s| - 1) as real * lo + lo == |s| as real * lo;
      assert (|s| - 1) as real * hi + hi == |s| as real * hi;
    }
  }

  /** The moving average lies between the smallest and largest sample: when
      every frame ran between `lo` and `hi` frames per second, so does the
      average. */
  lemma MeanBounds(s: seq<real>, lo: real, hi: real)
    requires s != []
    requires forall i :: 0 <= i < |s| ==> lo <= s[i] <= hi
    ensures lo <= Mean(s) <= hi
  {
    SumBounds(s, lo, hi);
    var n := |s| as real;
    var m := Mean(s);
    assert m * n == Sum(s);
    assert (m - lo) * n >= 0.0;
    assert (hi - m) * n >= 0.0;
    SignOfProduct(m - lo, n);
    SignOfProduct(hi - m, n);
  }

  /** The six lines of statistics; floats are printed as `{:.N}` prints them. */
  function StatsTexts(fps: real, avg: real, dt: real, entityCount: nat, frame: nat,
                      playerPos: Option<Vec2>, playerVelocity: Option<Vec2>): (lines: seq<string>)
    ensures |lines| == LineCount
  {
    [ "FPS: " + FormatFixed(fps, 1) + " (avg: " + FormatFixed(avg, 1) + ")",
      "Frame Time: " + FormatFixed(dt * 1000.0, 2) + "ms",
      "Entities: " + NatToString(entityCount),
      "Frame: " + NatToString(frame),
      "Player: " + PointText(playerPos),
      "Velocity: " + PointText(playerVelocity)
    ]
  }

  /** A vector as `({:.0}, {:.0})`, or `N/A` for none. */
  function PointText(v: Option<Vec2>): (s: string)
    ensures v.None? <==> s == "N/A"
  {
    match v
    case Some(p) => "(" + FormatFixed(p.x, 0) + ", " + FormatFixed(p.y, 0) + ")"
    case None => "N/A"
  }

  /** The overlay's lines with their contents replaced, the first six of
      them when there are at least six. */
  function WithContents(texts: seq<Text>, lines: seq<string>): (r: seq<Text>)
    requires |lines| == LineCount
    ensures |r| == |texts|
    ensures forall i :: 0 <= i < |texts| ==>
              r[i] == if |texts| >= LineCount && i < LineCount then texts[i].(content := lines[i]) else texts[i]
  {
    if |texts| >= LineCount then
      seq(|texts|, i requires 0 <= i < |texts| => if i < LineCount then texts[i].(content := lines[i]) else texts[i])
    else texts
  }

  class DebugOverlay {
    var position: Vec2
    var background: Panel
    var texts: seq<Text>
    var visible: bool
    var anchor: Anchor
    var fpsSamples: seq<real>
    var frameCounter: nat

    /** The window never holds more than 60 samples. */
    ghost predicate Valid()
      reads this
    {
      |fpsSamples| <= WindowSize
    }

    /** `DebugOverlay::new`: a hidden 250×150 panel with six empty lines. */
    constructor (position: Vec2)
      ensures Valid() && this.position == position && !visible && anchor == TopRight
      ensures fpsSamples == [] && frameCounter == 0
      ensures background == NewPanel(position, Vec2(250.0, 150.0)).(backgroundColor := Color(0, 0, 0, 200),
                                                                     borderColor := Color(0, 255, 0, 100))
      ensures |texts| == LineCount && forall i :: 0 <= i < LineCount ==> texts[i] == StatsLine(position, i)
    {
      this.position := position;
      var panel := NewPanel(position, Vec2(250.0, 150.0));
      background := panel.(backgroundColor := Color(0, 0, 0, 200), borderColor := Color(0, 255, 0, 100),
                           borderWidth := 1.0);
      var lines: seq<Text> := [];
      var i: nat := 0;
      while i < LineCount
        invariant i <= LineCount && |lines| == i
        invariant forall j :: 0 <= j < i ==> lines[j] == StatsLine(position, j)
      {
        lines := lines + [StatsLine(position, i)];
        i := i + 1;
      }
      texts := lines;
      visible := false;
      anchor := TopRight;
      fpsSamples := [];
      frameCounter := 0;
    }

    /** The samples' sum, added up front to back, over their count. */
    static method Average(samples: seq<real>) returns (avg: real)
      ensures avg == Mean(samples)
    {
      if samples == [] {
        return 0.0;
      }
      var total := 0.0;
      var i := 0;
      while i < |samples|
        invariant 0 <= i <= |samples|
        invariant total == Sum(samples[..i])
      {
        assert samples[..i + 1][..i] == samples[..i];
        total := total + samples[i];
        i := i + 1;
      }
      assert samples[..i] == samples;
      avg := total / |samples| as real;
    }

    /** `update_stats`: one more frame counted and sampled, and the six lines
        rewritten from the new statistics. */
    method UpdateStats(dt: real, entityCount: nat, playerPos: Option<Vec2>, playerVelocity: Option<Vec2>)
      modifies this
      ensures frameCounter == old(frameCounter) + 1
      ensures fpsSamples == PushSample(old(fpsSamples), Fps(dt))
      ensures texts == WithContents(old(texts), StatsTexts(Fps(dt), Mean(fpsSamples), dt, entityCount,
                                                           frameCounter, playerPos, playerVelocity))
      ensures old(Valid()) ==> Valid()
      ensures position == old(position) && background == old(background) && visible == old(visible)
      ensures anchor == old(anchor)
    {
      var fps := Fps(dt);
      Sample(fps);
      var avg := Average(fpsSamples);
      var lines := StatsTexts(fps, avg, dt, entityCount, frameCounter, playerPos, playerVelocity);
      Rewrite(lines);
    }

    /** The frame counting and sampling half of `update_stats`. */
    method Sample(fps: real)
      modifies this
      ensures frameCounter == old(frameCounter) + 1
      ensures fpsSamples == PushSample(old(fpsSamples), fps)
      ensures texts == old(texts) && position == old(position) && background == old(background)
      ensures visible == old(visible) && anchor == old(anchor)
    {
      frameCounter := frameCounter + 1;
      fpsSamples := PushSample(fpsSamples, fps);
    }

    /** The text rewriting half of `update_stats`. */
    method Rewrite(lines: seq<string>)
      requires |lines| == LineCount
      modifies this
      ensures texts == WithContents(old(texts), lines)
      ensures frameCounter == old(frameCounter) && fpsSamples == old(fpsSamples)
      ensures position == old(position) && background == old(background)
      ensures visible == old(visible) && anchor == old(anchor)
    {
      texts := WithContents(texts, lines);
    }

    /** `toggle`: shows a hidden overlay and hides a shown one. */
    method Toggle()
      modifies this
      ensures visible == !old(visible)
      ensures position == old(position) && background == old(background) && texts == old(texts)
      ensures fpsSamples == old(fpsSamples) && frameCounter == old(frameCounter) && anchor == old(anchor)
    {
      visible := !visible;
    }

    function GetPosition(): (p: Vec2)
      reads this
      ensures p == position
    {
      position
    }

    /** `set_position`: the panel moves along, and line `i` is laid out at
        its inset below it. */
    method SetPosition(p: Vec2)
      modifies this
      ensures position == p && background == old(background).(position := p)
      ensures |texts| == |old(texts)|
      ensures forall i :: 0 <= i < |texts| ==> texts[i] == old(texts)[i].(position := LineAt(p, i))
      ensures visible == old(visible) && fpsSamples == old(fpsSamples) && frameCounter == old(frameCounter)
      ensures anchor == old(anchor)
    {
      position := p;
      background := background.(position := p);
      var ts := texts;
      var i := 0;
      while i < |ts|
        invariant 0 <= i <= |ts| && |ts| == |texts|
        invariant forall j :: 0 <= j < i ==> ts[j] == texts[j].(position := LineAt(p, j))
        invariant forall j :: i <= j < |ts| ==> ts[j] == texts[j]
      {
        ts := ts[i := ts[i].(position := LineAt(p, i))];
        i := i + 1;
      }
      texts := ts;
    }

    function IsVisible(): (v: bool)
      reads this
      ensures v == visible
    {
      visible
    }

    /** `set_visible`: the panel and every line follow the overlay. */
    method SetVisible(v: bool)
      modifies this
      ensures visible == v && background == old(background).(visible := v)
      ensures |texts| == |old(texts)|
      ensures forall i :: 0 <= i < |texts| ==> texts[i] == old(texts)[i].(visible := v)
      ensures position == old(position) && fpsSamples == old(fpsSamples) && frameCounter == old(frameCounter)
      ensures anchor == old(anchor)
    {
      visible := v;
      background := background.(visible := v);
      var ts := texts;
      var i := 0;
      while i < |ts|
        invariant 0 <= i <= |ts| && |ts| == |texts|
        invariant forall j :: 0 <= j < i ==> ts[j] == texts[j].(visible := v)
        invariant forall j :: i <= j < |ts| ==> ts[j] == texts[j]
      {
        ts := ts[i := ts[i].(visible := v)];
        i := i + 1;
      }
      texts := ts;
    }
  }

  /** Two toggles leave the overlay as shown as it was. */
  method ToggleTwice(d: DebugOverlay)
    modifies d
    ensures d.visible == old(d.visible) && d.texts == old(d.texts)
  {
    d.Toggle();
    d.Toggle();
  }
}
