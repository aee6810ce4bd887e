/** Layout helpers for UI elements (engine/ui/layout.rs): margins, stacking a
    list of elements along one axis, centring in a container and applying a
    margin. */
module Layouts {
  import opened Core

  datatype Margin = Margin(top: real, right: real, bottom: real, left: real)

  function Uniform(value: real): (m: Margin)
    ensures m.top == value && m.right == value && m.bottom == value && m.left == value
  {
    Margin(value, value, value, value)
  }

  function Symmetric(vertical: real, horizontal: real): (m: Margin)
    ensures m.top == vertical && m.bottom == vertical
    ensures m.left == horizontal && m.right == horizontal
  {
    Margin(vertical, horizontal, vertical, horizontal)
  }

  /** A uniform margin is the symmetric one with equal sides. */
  lemma UniformIsSymmetric(value: real)
    ensures Uniform(value) == Symmetric(value, value)
  {
  }

  /** `Alignment`, which the layout module declares; nothing in it uses the
      type yet. */
  datatype Alignment = Start | Center | End

  /** An element of a stack: its position (ignored by stacking) and size. */
  type Element = (Vec2, Vec2)

  /** The room taken along the stacking axis by `elements`, each followed by
      the spacing. */
  function Extent(elements: seq<Element>, spacing: real, vertical: bool): (e: real)
    ensures elements == [] ==> e == 0.0
  {
    if elements == [] then 0.0
    else
      var size := elements[|elements| - 1].1;
      Extent(elements[..|elements| - 1], spacing, vertical) + (if vertical then size.y else size.x) + spacing
  }

  /** Extent grows with each element when sizes and spacing are not
      negative, so a stack never runs backwards. */
  lemma {:induction false} ExtentGrows(elements: seq<Element>, spacing: real, vertical: bool, i: nat, j: nat)
    requires i <= j <= |elements| && 0.0 <= spacing
    requires forall k :: 0 <= k < |elements| ==> 0.0 <= elements[k].1.x && 0.0 <= elements[k].1.y
    ensures Extent(elements[..i], spacing, vertical) <= Extent(elements[..j], spacing, vertical)
    decreases j - i
  {
    if i < j {
      ExtentGrows(elements, spacing, vertical, i, j - 1);
      assert elements[..j][..j - 1] == elements[..j - 1];
    }
  }

  /** `stack_vertical`: one position per element, all in the start column,
      each one the previous element's height plus the spacing below it. */
  method StackVertical(elements: seq<Element>, start: Vec2, spacing: real) returns (positions: seq<Vec2>)
    ensures |positions| == |elements|
    ensures forall i :: 0 <= i < |positions| ==>
              positions[i] == Vec2(start.x, start.y + Extent(elements[..i], spacing, true))
  {
    positions := [];
    var currentY := start.y;
    var i := 0;
    while i < |elements|
      invariant 0 <= i <= |elements| && |positions| == i
      invariant currentY == start.y + Extent(elements[..i], spacing, true)
      invariant forall j :: 0 <= j < i ==> positions[j] == Vec2(start.x, start.y + Extent(elements[..j], spacing, true))
    {
      positions := positions + [Vec2(start.x, currentY)];
      assert elements[..i + 1][..i] == elements[..i];
      currentY := currentY + elements[i].1.y + spacing;
      i := i + 1;
    }
  }

  /** `stack_horizontal`: the mirror image along the x axis. */
  method StackHorizontal(elements: seq<Element>, start: Vec2, spacing: real) returns (positions: seq<Vec2>)
    ensures |positions| == |elements|
    ensures forall i :: 0 <= i < |positions| ==>
              positions[i] == Vec2(start.x + Extent(elements[..i], spacing, false), start.y)
  {
    positions := [];
    var currentX := start.x;
    var i := 0;
    while i < |elements|
      invariant 0 <= i <= |elements| && |positions| == i
      invariant currentX == start.x + Extent(elements[..i], spacing, false)
      invariant forall j :: 0 <= j < i ==> positions[j] == Vec2(start.x + Extent(elements[..j], spacing, false), start.y)
    {
      positions := positions + [Vec2(currentX, start.y)];
      assert elements[..i + 1][..i] == elements[..i];
      currentX := currentX + elements[i].1.x + spacing;
      i := i + 1;
    }
  }

  /** Consecutive stacked elements are exactly one element plus the spacing
      apart, so with a non-negative spacing they do not overlap. */
  lemma StackSpacing(elements: seq<Element>, spacing: real, vertical: bool, i: nat)
    requires i < |elements|
    ensures Extent(elements[..i + 1], spacing, vertical) - Extent(elements[..i], spacing, vertical) ==
            (if vertical then elements[i].1.y else elements[i].1.x) + spacing
  {
    assert elements[..i + 1][..i] == elements[..i];
  }

  /** `center_in_rect`. */
  function CenterInRect(elementSize: Vec2, containerPos: Vec2, containerSize: Vec2): (p: Vec2)
    ensures p.x + elementSize.x / 2.0 == containerPos.x + containerSize.x / 2.0
    ensures p.y + elementSize.y / 2.0 == containerPos.y + containerSize.y / 2.0
    ensures elementSize.x <= containerSize.x ==>
              containerPos.x <= p.x && p.x + elementSize.x <= containerPos.x + containerSize.x
    ensures elementSize.y <= containerSize.y ==>
              containerPos.y <= p.y && p.y + elementSize.y <= containerPos.y + containerSize.y
  {
    Vec2(containerPos.x + (containerSize.x - elementSize.x) / 2.0,
         containerPos.y + (containerSize.y - elementSize.y) / 2.0)
  }

  /** `apply_margin`: only the left and top sides move a position. */
  function ApplyMargin(position: Vec2, margin: Margin): (p: Vec2)
    ensures p.x - position.x == margin.left && p.y - position.y == margin.top
  {
    Vec2(position.x + margin.left, position.y + margin.top)
  }

  /** The right and bottom sides never move a position, and a uniform
      margin moves it diagonally. */
  lemma MarginSides(position: Vec2, margin: Margin, r: real, b: real, v: real)
    ensures ApplyMargin(position, margin.(right := r, bottom := b)) == ApplyMargin(position, margin)
    ensures ApplyMargin(position, Uniform(v)) == position.Add(Vec2(v, v))
  {
  }
}
