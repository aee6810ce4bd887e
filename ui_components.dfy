/** Basic UI widgets (engine/ui/components.rs): the animated progress bar
    used for health and energy, and the panel and text elements the composite
    widgets are built from. */
module UiComponents {
  import opened Core
  import opened Anchors

  /** A filled rectangle with a border. Widgets own their panels by value, so
      a panel is a value that its owner replaces. */
  datatype Panel = Panel(position: Vec2, size: Vec2, backgroundColor: Color, borderColor: Color,
                         borderWidth: real, visible: bool, anchor: Anchor)

  function NewPanel(position: Vec2, size: Vec2): (p: Panel)
    ensures p.position == position && p.size == size && p.visible && p.anchor == TopLeft
    ensures p.backgroundColor == Color(0, 0, 0, 180) && p.borderColor == Color(255, 255, 255, 100)
  {
    Panel(position, size, Color(0, 0, 0, 180), Color(255, 255, 255, 100), 1.0, true, TopLeft)
  }

  /** A line of text, owned by value like a panel. */
  datatype Text = Text(position: Vec2, content: string, color: Color, size: nat, visible: bool, anchor: Anchor)

  function NewText(position: Vec2, content: string): (t: Text)
    ensures t.position == position && t.content == content && t.visible
    ensures t.color == White && t.size == 16 && t.anchor == TopLeft
  {
    Text(position, content, White, 16, true, TopLeft)
  }

  /** Changes smaller than this snap the animated value to the target. */
  const SnapThreshold: real := 0.01

  /** One animation step of the bar: the displayed value moves the fraction
      `speed * dt` of the way to the target, or snaps to it when close. */
  function Approach(target: real, shown: real, speed: real, dt: real): (a: real)
    ensures Abs(target - shown) <= SnapThreshold ==> a == target
    ensures 0.0 <= speed * dt <= 1.0 ==> Min(shown, target) <= a <= Max(shown, target)
    ensures 0.0 <= speed * dt <= 1.0 ==> Abs(target - a) <= Abs(target - shown)
  {
    var diff := target - shown;
    if Abs(diff) > SnapThreshold then
      assert diff * speed * dt == diff * (speed * dt);
      assert 0.0 <= speed * dt <= 1.0 ==>
               (0.0 <= diff ==> 0.0 <= diff * (speed * dt) <= diff) &&
               (diff <= 0.0 ==> diff <= diff * (speed * dt) <= 0.0) by {
        if 0.0 <= speed * dt <= 1.0 {
          ApproachStep(diff, speed * dt);
        }
      }
      shown + diff * speed * dt
    else
      target
  }

  /** Moving a fraction `k` in [0, 1] of the gap leaves the fraction `1 - k`. */
  lemma ApproachStep(diff: real, k: real)
    requires 0.0 <= k <= 1.0
    ensures 0.0 <= diff ==> 0.0 <= diff * k <= diff
    ensures diff <= 0.0 ==> diff <= diff * k <= 0.0
  {
    if 0.0 <= diff {
      assert diff * k <= diff * 1.0;
    } else {
      assert (-diff) * k <= (-diff) * 1.0;
    }
  }

  class ProgressBar {
    var position: Vec2
    var size: Vec2
    var value: real
    var maxValue: real
    var backgroundColor: Color
    var fillColor: Color
    var borderColor: Color
    var borderWidth: real
    var visible: bool
    var anchor: Anchor
    var animatedValue: real
    var animationSpeed: real

    /** The target stays within the bar's range. */
    ghost predicate Valid()
      reads this
    {
      0.0 <= value <= maxValue
    }

    /** `ProgressBar::new`: full, green, visible. */
    constructor (position: Vec2, size: Vec2, maxValue: real)
      ensures this.position == position && this.size == size && this.maxValue == maxValue
      ensures value == maxValue && animatedValue == maxValue && animationSpeed == 5.0
      ensures visible && anchor == TopLeft && fillColor == Color(0, 255, 0, 255)
      ensures backgroundColor == Color(40, 40, 40, 200) && borderColor == White && borderWidth == 2.0
    {
      this.position := position;
      this.size := size;
      this.value := maxValue;
      this.maxValue := maxValue;
      backgroundColor := Color(40, 40, 40, 200);
      fillColor := Color(0, 255, 0, 255);
      borderColor := White;
      borderWidth := 2.0;
      visible := true;
      anchor := TopLeft;
      animatedValue := maxValue;
      animationSpeed := 5.0;
    }

    /** `ProgressBar::health_bar`: a full crimson bar. */
    constructor HealthBar(position: Vec2, size: Vec2, maxHealth: real)
      ensures this.position == position && this.size == size && maxValue == maxHealth
      ensures value == maxHealth && animatedValue == maxHealth && visible
      ensures fillColor == Color(220, 20, 60, 255) && backgroundColor == Color(60, 10, 10, 200)
    {
      this.position := position;
      this.size := size;
      value := maxHealth;
      maxValue := maxHealth;
      backgroundColor := Color(60, 10, 10, 200);
      fillColor := Color(220, 20, 60, 255);
      borderColor := White;
      borderWidth := 2.0;
      visible := true;
      anchor := TopLeft;
      animatedValue := maxHealth;
      animationSpeed := 5.0;
    }

    /** `ProgressBar::energy_bar`: a full blue bar. */
    constructor EnergyBar(position: Vec2, size: Vec2, maxEnergy: real)
      ensures this.position == position && this.size == size && maxValue == maxEnergy
      ensures value == maxEnergy && animatedValue == maxEnergy && visible
      ensures fillColor == Color(64, 156, 255, 255) && backgroundColor == Color(10, 30, 60, 200)
    {
      this.position := position;
      this.size := size;
      value := maxEnergy;
      maxValue := maxEnergy;
      backgroundColor := Color(10, 30, 60, 200);
      fillColor := Color(64, 156, 255, 255);
      borderColor := White;
      borderWidth := 2.0;
      visible := true;
      anchor := TopLeft;
      animatedValue := maxEnergy;
      animationSpeed := 5.0;
    }

    /** `set_value`: the target, clamped into [0, max]; `f32::clamp` panics on
        a negative maximum. */
    method SetValue(v: real)
      requires 0.0 <= maxValue
      modifies this
      ensures maxValue == old(maxValue) && value == Clamp(v, 0.0, maxValue) && Valid()
      ensures animatedValue == old(animatedValue) && size == old(size)
      ensures visible == old(visible) && position == old(position)
      ensures animationSpeed == old(animationSpeed) && anchor == old(anchor) && borderWidth == old(borderWidth)
      ensures fillColor == old(fillColor) && backgroundColor == old(backgroundColor) && borderColor == old(borderColor)
    {
      value := Clamp(v, 0.0, maxValue);
    }

    /** `get_fill_percentage`. */
    function FillPercentage(): (p: real)
      reads this
      requires maxValue != 0.0
      ensures p * maxValue == animatedValue
      ensures 0.0 <= animatedValue <= maxValue ==> 0.0 <= p <= 1.0
    {
      animatedValue / maxValue
    }

    /** `get_fill_width`: the filled part of the bar, never wider than the bar
        while the shown value is in range. */
    function FillWidth(): (w: real)
      reads this
      requires maxValue != 0.0
      ensures w * maxValue == size.x * animatedValue
      ensures 0.0 <= size.x && 0.0 <= animatedValue <= maxValue ==> 0.0 <= w <= size.x
    {
      var p := FillPercentage();
      assert 0.0 <= size.x && 0.0 <= animatedValue <= maxValue ==> 0.0 <= size.x * p <= size.x by {
        if 0.0 <= size.x && 0.0 <= animatedValue <= maxValue {
          ApproachStep(size.x, p);
        }
      }
      size.x * p
    }

    /** `update`: one animation step toward the target. */
    method Update(dt: real)
      modifies this
      ensures animatedValue == Approach(old(value), old(animatedValue), old(animationSpeed), dt)
      ensures value == old(value) && maxValue == old(maxValue) && animationSpeed == old(animationSpeed)
      ensures size == old(size) && visible == old(visible) && position == old(position)
      ensures anchor == old(anchor) && borderWidth == old(borderWidth)
      ensures fillColor == old(fillColor) && backgroundColor == old(backgroundColor) && borderColor == old(borderColor)
    {
      var diff := value - animatedValue;
      if Abs(diff) > SnapThreshold {
        animatedValue := animatedValue + diff * animationSpeed * dt;
      } else {
        animatedValue := value;
      }
    }

    function GetPosition(): (p: Vec2)
      reads this
      ensures p == position
    {
      position
    }

    method SetPosition(p: Vec2)
      modifies this
      ensures position == p && size == old(size) && value == old(value) && animatedValue == old(animatedValue)
      ensures maxValue == old(maxValue) && visible == old(visible)
      ensures animationSpeed == old(animationSpeed) && anchor == old(anchor) && borderWidth == old(borderWidth)
      ensures fillColor == old(fillColor) && backgroundColor == old(backgroundColor) && borderColor == old(borderColor)
    {
      position := p;
    }

    function IsVisible(): (v: bool)
      reads this
      ensures v == visible
    {
      visible
    }

    method SetVisible(v: bool)
      modifies this
      ensures visible == v && position == old(position) && value == old(value)
      ensures animatedValue == old(animatedValue) && maxValue == old(maxValue) && size == old(size)
      ensures animationSpeed == old(animationSpeed) && anchor == old(anchor) && borderWidth == old(borderWidth)
      ensures fillColor == old(fillColor) && backgroundColor == old(backgroundColor) && borderColor == old(borderColor)
    {
      visible := v;
    }
  }

  /** The bar's life cycle: after a new target is set and one frame is
      animated (with `speed * dt` at most 1), the target is in range, the
      shown value is no further from it than before, and the bar is as
      visible as it was last set. */
  method SetAndAnimate(bar: ProgressBar, v: real, dt: real, show: bool)
    requires 0.0 < bar.maxValue && 0.0 <= bar.animatedValue <= bar.maxValue
    requires 0.0 <= bar.animationSpeed * dt <= 1.0 && 0.0 <= bar.size.x
    modifies bar
    ensures bar.maxValue == old(bar.maxValue) && bar.Valid() && bar.IsVisible() == show
    ensures 0.0 <= bar.animatedValue <= bar.maxValue
    ensures Abs(bar.value - bar.animatedValue) <= Abs(bar.value - old(bar.animatedValue))
    ensures 0.0 <= bar.FillWidth() <= bar.size.x
  {
    bar.SetValue(v);
    bar.Update(dt);
    bar.SetVisible(show);
  }
}
