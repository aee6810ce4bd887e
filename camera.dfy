/** The 2-D camera (engine/rendering/camera.rs): a position, a zoom that eases
    toward a target zoom, and the conversions between world and screen
    coordinates, optionally snapped to whole pixels. */
module Cameras {
  import opened Core
  import opened Arith

  /** One easing step of the zoom: move a `speed * dt` fraction of the way to
      the target, unless the zoom is already within 0.01 of it. */
  function ZoomStep(zoom: real, target: real, speed: real, dt: real): (z: real)
    ensures Abs(target - zoom) <= 0.01 ==> z == zoom
    ensures Abs(target - zoom) > 0.01 ==> z - zoom == (target - zoom) * speed * dt
  {
    var diff := target - zoom;
    if Abs(diff) > 0.01 then zoom + diff * speed * dt else zoom
  }

  /** With `0 <= speed * dt <= 1` the zoom never overshoots: it stays between
      its old value and the target and never moves away from the target, so a
      positive zoom with a positive target stays positive. */
  lemma {:induction false} ZoomApproachesTarget(zoom: real, target: real, speed: real, dt: real)
    requires 0.0 <= speed * dt <= 1.0
    ensures var z := ZoomStep(zoom, target, speed, dt);
            Min(zoom, target) <= z <= Max(zoom, target) && Abs(target - z) <= Abs(target - zoom)
    ensures zoom > 0.0 && target > 0.0 ==> ZoomStep(zoom, target, speed, dt) > 0.0
  {
    var k := speed * dt;
    var diff := target - zoom;
    var z := ZoomStep(zoom, target, speed, dt);
    if Abs(diff) > 0.01 {
      assert diff * speed * dt == diff * k;
      assert z == zoom + diff * k;
      assert target - z == diff * (1.0 - k);
      if diff >= 0.0 {
        NonNegativeProduct(diff, k);
        NonNegativeProduct(diff, 1.0 - k);
      } else {
        NonNegativeProduct(-diff, k);
        NonNegativeProduct(-diff, 1.0 - k);
      }
    }
  }

  /** A coordinate snapped so that, at the given zoom, it falls on a whole
      screen pixel. */
  function Snap(v: real, zoom: real): (r: real)
    requires zoom != 0.0
    ensures r * zoom == Round(v * zoom) as real
    ensures zoom > 0.0 ==> Abs(r - v) * zoom <= 0.5
  {
    Round(v * zoom) as real / zoom
  }

  /** The exact world-to-screen mapping, before any rounding. */
  function ExactScreen(position: Vec2, zoom: real, viewport: Vec2, p: Vec2): Vec2
  {
    p.Sub(position).Scale(zoom).Add(viewport.Scale(0.5))
  }

  class Camera {
    var position: Vec2
    var zoom: real
    var viewportSize: Vec2
    var targetZoom: real
    var zoomSpeed: real
    var pixelPerfect: bool

    /** `Camera::new`: at the origin, zoom 1 and pixel snapping on. */
    constructor (width: real, height: real)
      ensures position == Zero && zoom == 1.0 && viewportSize == Vec2(width, height)
      ensures targetZoom == 1.0 && zoomSpeed == 2.0 && pixelPerfect
    {
      position := Zero;
      zoom := 1.0;
      viewportSize := Vec2(width, height);
      targetZoom := 1.0;
      zoomSpeed := 2.0;
      pixelPerfect := true;
    }

    /** `update`: one easing step of the zoom. */
    method Update(dt: real)
      modifies this
      ensures zoom == ZoomStep(old(zoom), targetZoom, zoomSpeed, dt)
      ensures position == old(position) && viewportSize == old(viewportSize) && targetZoom == old(targetZoom)
      ensures zoomSpeed == old(zoomSpeed) && pixelPerfect == old(pixelPerfect)
    {
      var zoomDiff := targetZoom - zoom;
      if Abs(zoomDiff) > 0.01 {
        zoom := zoom + zoomDiff * zoomSpeed * dt;
      }
    }

    /** `set_zoom`: the target is clamped to `[0.1, 5]`; the zoom itself
        follows through `update`. */
    method SetZoom(z: real)
      modifies this
      ensures 0.1 <= targetZoom <= 5.0 && targetZoom == Clamp(z, 0.1, 5.0)
      ensures position == old(position) && zoom == old(zoom) && viewportSize == old(viewportSize)
      ensures zoomSpeed == old(zoomSpeed) && pixelPerfect == old(pixelPerfect)
    {
      targetZoom := Clamp(z, 0.1, 5.0);
    }

    /** `world_to_screen`: relative to the camera, zoomed, centred in the
        viewport and, when pixel snapping is on, rounded to whole pixels
        (within half a pixel of the exact point). */
    function WorldToScreen(p: Vec2): (s: Vec2)
      reads this
      ensures !pixelPerfect ==> s == ExactScreen(position, zoom, viewportSize, p)
      ensures var e := ExactScreen(position, zoom, viewportSize, p);
              e.x - 0.5 <= s.x <= e.x + 0.5 && e.y - 0.5 <= s.y <= e.y + 0.5
      ensures pixelPerfect ==> s.x == s.x.Floor as real && s.y == s.y.Floor as real
    {
      var screenPos := p.Sub(position).Scale(zoom).Add(viewportSize.Scale(0.5));
      if pixelPerfect then Vec2(Round(screenPos.x) as real, Round(screenPos.y) as real) else screenPos
    }

    /** `screen_to_world`: the inverse mapping (a zero zoom would divide by
        zero). */
    function ScreenToWorld(s: Vec2): (w: Vec2)
      reads this
      requires zoom != 0.0
      ensures ExactScreen(position, zoom, viewportSize, w) == s
    {
      var relative := s.Sub(viewportSize.Scale(0.5));
      Vec2(relative.x / zoom, relative.y / zoom).Add(position)
    }

    /** `follow`: move a `smoothing * dt` fraction of the way to `target`;
        with pixel snapping the position is snapped so that it lands on whole
        screen pixels at the current zoom. */
    method Follow(target: Vec2, smoothing: real, dt: real)
      requires pixelPerfect ==> zoom != 0.0
      modifies this
      ensures zoom == old(zoom) && viewportSize == old(viewportSize) && targetZoom == old(targetZoom)
      ensures zoomSpeed == old(zoomSpeed) && pixelPerfect == old(pixelPerfect)
      ensures var newPos := old(position).Add(target.Sub(old(position)).Scale(smoothing).Scale(dt));
              if pixelPerfect
              then position == Vec2(Snap(newPos.x, zoom), Snap(newPos.y, zoom))
              else position == newPos
    {
      var diff := target.Sub(position);
      var newPos := position.Add(diff.Scale(smoothing).Scale(dt));
      if pixelPerfect {
        position := Vec2(Snap(newPos.x, zoom), Snap(newPos.y, zoom));
      } else {
        position := newPos;
      }
    }
  }

  /** Without pixel snapping the two conversions are inverse to each other,
      whatever the zoom (as long as it is not zero). */
  lemma {:induction false} ConversionsRoundTrip(c: Camera, p: Vec2, s: Vec2)
    requires c.zoom != 0.0 && !c.pixelPerfect
    ensures c.ScreenToWorld(c.WorldToScreen(p)) == p
    ensures c.WorldToScreen(c.ScreenToWorld(s)) == s
  {
    var z := c.zoom;
    var e := ExactScreen(c.position, z, c.viewportSize, p);
    assert (e.x - c.viewportSize.x * 0.5) / z == (p.x - c.position.x);
    assert (e.y - c.viewportSize.y * 0.5) / z == (p.y - c.position.y);
  }

  /** The camera's own position shows at the centre of the viewport, rounded
      to whole pixels when snapping is on. */
  lemma CentreMapsToViewportCentre(c: Camera)
    ensures !c.pixelPerfect ==> c.WorldToScreen(c.position) == c.viewportSize.Scale(0.5)
    ensures c.pixelPerfect ==>
              c.WorldToScreen(c.position) == Vec2(Round(c.viewportSize.x * 0.5) as real, Round(c.viewportSize.y * 0.5) as real)
  {
  }

  /** With pixel snapping a round trip lands within half a pixel, divided by
      the zoom, of where it started. */
  lemma {:induction false} SnappedRoundTripIsClose(c: Camera, p: Vec2)
    requires c.zoom > 0.0 && c.pixelPerfect
    ensures var q := c.ScreenToWorld(c.WorldToScreen(p));
            Abs(q.x - p.x) * c.zoom <= 0.5 && Abs(q.y - p.y) * c.zoom <= 0.5
  {
    var z := c.zoom;
    var s := c.WorldToScreen(p);
    var q := c.ScreenToWorld(s);
    var e := ExactScreen(c.position, z, c.viewportSize, p);
    assert (q.x - p.x) * z == s.x - e.x;
    assert (q.y - p.y) * z == s.y - e.y;
  }
}
