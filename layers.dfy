/** Depth layers for drawing (engine/rendering/layers.rs): the seven render
    layers in drawing order, each layer's default parallax, the atmospheric
    tint that fades distant layers, and the parallax placement of a layered
    sprite. */
module Layers {
  import opened Core
  import opened Arith

  datatype RenderLayer = FarBackground | MidBackground | NearBackground | Gameplay | Entities | Foreground | UI

  /** The discriminant that the derived ordering compares. */
  function Depth(l: RenderLayer): (d: nat)
    ensures d <= 6
    ensures l == FarBackground <==> d == 0
    ensures l == UI <==> d == 6
  {
    match l
    case FarBackground => 0
    case MidBackground => 1
    case NearBackground => 2
    case Gameplay => 3
    case Entities => 4
    case Foreground => 5
    case UI => 6
  }

  /** The derived `<` on layers: drawn earlier, further back. */
  predicate Behind(a: RenderLayer, b: RenderLayer)
  {
    Depth(a) < Depth(b)
  }

  const DefaultLayer: RenderLayer := Gameplay

  /** Layers are totally ordered by depth: any two distinct layers compare
      one way or the other, and the default layer sits in the middle, above
      the three backgrounds and below entities, foreground and UI. */
  lemma LayersTotallyOrdered(a: RenderLayer, b: RenderLayer)
    ensures a == b || Behind(a, b) || Behind(b, a)
    ensures !(Behind(a, b) && Behind(b, a))
    ensures Behind(a, DefaultLayer) <==> a in {FarBackground, MidBackground, NearBackground}
    ensures Behind(DefaultLayer, a) <==> a in {Entities, Foreground, UI}
  {
    assert Depth(a) == Depth(b) ==> a == b by {
      match a
      case FarBackground =>
      case MidBackground =>
      case NearBackground =>
      case Gameplay =>
      case Entities =>
      case Foreground =>
      case UI =>
    }
  }

  datatype ParallaxConfig = ParallaxConfig(scrollFactorX: real, scrollFactorY: real,
                                           autoScrollX: real, autoScrollY: real)

  /** `ParallaxConfig::new`: no automatic scrolling. */
  function NewParallax(fx: real, fy: real): (c: ParallaxConfig)
    ensures c.scrollFactorX == fx && c.scrollFactorY == fy
    ensures c.autoScrollX == 0.0 && c.autoScrollY == 0.0
  {
    ParallaxConfig(fx, fy, 0.0, 0.0)
  }

  /** A layer that does not move with the camera at all. */
  const StaticLayer: ParallaxConfig := NewParallax(0.0, 0.0)

  /** `with_auto_scroll`: only the automatic scroll speeds change. */
  function WithAutoScroll(c: ParallaxConfig, x: real, y: real): (r: ParallaxConfig)
    ensures r.scrollFactorX == c.scrollFactorX && r.scrollFactorY == c.scrollFactorY
    ensures r.autoScrollX == x && r.autoScrollY == y
  {
    c.(autoScrollX := x, autoScrollY := y)
  }

  function DefaultParallax(l: RenderLayer): (c: ParallaxConfig)
    ensures c.autoScrollX == 0.0 && c.autoScrollY == 0.0
  {
    match l
    case FarBackground => NewParallax(0.1, 0.05)
    case MidBackground => NewParallax(0.3, 0.2)
    case NearBackground => NewParallax(0.6, 0.5)
    case Gameplay => NewParallax(1.0, 1.0)
    case Entities => NewParallax(1.0, 1.0)
    case Foreground => NewParallax(1.2, 1.1)
    case UI => StaticLayer
  }

  /** Up to the gameplay layer, a layer further back scrolls strictly slower
      on both axes; gameplay and entities scroll with the camera, the
      foreground faster, and the UI not at all. */
  lemma ParallaxByDepth(a: RenderLayer, b: RenderLayer)
    requires Behind(a, b) && Depth(b) <= Depth(Gameplay)
    ensures DefaultParallax(a).scrollFactorX < DefaultParallax(b).scrollFactorX
    ensures DefaultParallax(a).scrollFactorY < DefaultParallax(b).scrollFactorY
    ensures DefaultParallax(Entities) == DefaultParallax(Gameplay) == NewParallax(1.0, 1.0)
    ensures DefaultParallax(Foreground).scrollFactorX > 1.0 && DefaultParallax(Foreground).scrollFactorY > 1.0
    ensures DefaultParallax(UI) == StaticLayer
  {
  }

  /** One channel of the haze: scaled, lifted and cast back to `u8`. */
  function Haze(v: u8, scale: real, lift: real): (r: u8)
    requires 0.0 <= scale <= 1.0 && 0.0 <= lift
    ensures (v as real * scale + lift) < 255.0 ==> r as real <= v as real * scale + lift
    ensures lift == 0.0 ==> r <= v
  {
    var vr := v as real;
    var x := vr * scale;
    MulBounds(vr, scale);
    assert 0.0 <= x <= vr;
    CastU8Within(x + lift, 0, v);
    CastU8(x + lift)
  }

  /** `get_atmosphere_tint`: the three background layers are hazed, the
      rest of the layers draw the colour unchanged. */
  function AtmosphereTint(l: RenderLayer, base: Color): (c: Color)
    ensures !Behind(l, Gameplay) ==> c == base
    ensures c.a <= base.a
  {
    match l
    case FarBackground =>
      Color(Haze(base.r, 0.7, 50.0), Haze(base.g, 0.7, 60.0), Haze(base.b, 0.8, 70.0), Haze(base.a, 0.8, 0.0))
    case MidBackground =>
      Color(Haze(base.r, 0.85, 20.0), Haze(base.g, 0.85, 25.0), Haze(base.b, 0.9, 30.0), Haze(base.a, 0.9, 0.0))
    case NearBackground =>
      Color(Haze(base.r, 0.95, 0.0), Haze(base.g, 0.95, 0.0), Haze(base.b, 0.97, 0.0), base.a)
    case _ => base
  }

  /** The near background only darkens: no channel grows. */
  lemma NearBackgroundDarkens(base: Color)
    ensures var c := AtmosphereTint(NearBackground, base);
            c.r <= base.r && c.g <= base.g && c.b <= base.b && c.a == base.a
  {
  }

  datatype LayeredSprite = LayeredSprite(sprite: Sprite, layer: RenderLayer, parallaxOverride: Option<ParallaxConfig>)

  function NewLayeredSprite(sprite: Sprite, layer: RenderLayer): (s: LayeredSprite)
    ensures s.sprite == sprite && s.layer == layer && s.parallaxOverride.None?
  {
    LayeredSprite(sprite, layer, None)
  }

  function WithParallax(s: LayeredSprite, config: ParallaxConfig): (r: LayeredSprite)
    ensures r.sprite == s.sprite && r.layer == s.layer && r.parallaxOverride == Some(config)
  {
    s.(parallaxOverride := Some(config))
  }

  /** `get_parallax`: the override when there is one, else the layer's
      default. */
  function GetParallax(s: LayeredSprite): (c: ParallaxConfig)
    ensures s.parallaxOverride.Some? ==> c == s.parallaxOverride.value
    ensures s.parallaxOverride.None? ==> c == DefaultParallax(s.layer)
  {
    match s.parallaxOverride
    case Some(c) => c
    case None => DefaultParallax(s.layer)
  }

  /** `calculate_position`: the world position, shifted by the part of the
      camera offset the layer does not follow, plus the automatic scroll. */
  function CalculatePosition(s: LayeredSprite, worldPos: Vec2, cameraOffset: Vec2, elapsed: real): (p: Vec2)
  {
    var c := GetParallax(s);
    var parallaxOffset := Vec2(cameraOffset.x * (1.0 - c.scrollFactorX), cameraOffset.y * (1.0 - c.scrollFactorY));
    var autoScroll := Vec2(c.autoScrollX * elapsed, c.autoScrollY * elapsed);
    worldPos.Add(parallaxOffset).Add(autoScroll)
  }

  /** Gameplay and entity sprites without an override sit at their world
      position whatever the camera and the clock; UI sprites without an
      override are shifted by the whole camera offset. */
  lemma PlacementByLayer(sprite: Sprite, l: RenderLayer, worldPos: Vec2, cameraOffset: Vec2, elapsed: real)
    ensures l in {Gameplay, Entities} ==>
              CalculatePosition(NewLayeredSprite(sprite, l), worldPos, cameraOffset, elapsed) == worldPos
    ensures l == UI ==>
              CalculatePosition(NewLayeredSprite(sprite, l), worldPos, cameraOffset, elapsed) == worldPos.Add(cameraOffset)
  {
  }

  /** Moving the camera moves a sprite by the camera's motion scaled by the
      part of it the layer does not follow; time moves it by the automatic
      scroll. */
  lemma CameraMotion(s: LayeredSprite, worldPos: Vec2, cam1: Vec2, cam2: Vec2, t1: real, t2: real)
    ensures var c := GetParallax(s);
            var d := CalculatePosition(s, worldPos, cam2, t2).Sub(CalculatePosition(s, worldPos, cam1, t1));
            d.x == (cam2.x - cam1.x) * (1.0 - c.scrollFactorX) + c.autoScrollX * (t2 - t1) &&
            d.y == (cam2.y - cam1.y) * (1.0 - c.scrollFactorY) + c.autoScrollY * (t2 - t1)
  {
    var c := GetParallax(s);
    assert cam2.x * (1.0 - c.scrollFactorX) - cam1.x * (1.0 - c.scrollFactorX) == (cam2.x - cam1.x) * (1.0 - c.scrollFactorX);
    assert cam2.y * (1.0 - c.scrollFactorY) - cam1.y * (1.0 - c.scrollFactorY) == (cam2.y - cam1.y) * (1.0 - c.scrollFactorY);
    assert c.autoScrollX * t2 - c.autoScrollX * t1 == c.autoScrollX * (t2 - t1);
    assert c.autoScrollY * t2 - c.autoScrollY * t1 == c.autoScrollY * (t2 - t1);
  }
}
