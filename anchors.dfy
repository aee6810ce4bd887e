/** Screen anchors for UI elements (engine/ui/mod.rs): nine reference points
    on the screen, each giving the top-left corner that places an element of
    a given size flush with that point, before the element's own offset. */
module Anchors {
  import opened Core

  datatype Anchor = TopLeft | TopCenter | TopRight | MiddleLeft | Center | MiddleRight
                  | BottomLeft | BottomCenter | BottomRight

  /** The anchor's base corner, before the offset. */
  function Base(a: Anchor, screen: Vec2, elem: Vec2): (b: Vec2)
  {
    var left := 0.0;
    var middleX := screen.x / 2.0 - elem.x / 2.0;
    var right := screen.x - elem.x;
    var top := 0.0;
    var middleY := screen.y / 2.0 - elem.y / 2.0;
    var bottom := screen.y - elem.y;
    match a
    case TopLeft => Vec2(left, top)
    case TopCenter => Vec2(middleX, top)
    case TopRight => Vec2(right, top)
    case MiddleLeft => Vec2(left, middleY)
    case Center => Vec2(middleX, middleY)
    case MiddleRight => Vec2(right, middleY)
    case BottomLeft => Vec2(left, bottom)
    case BottomCenter => Vec2(middleX, bottom)
    case BottomRight => Vec2(right, bottom)
  }

  predicate IsLeft(a: Anchor) { a in {TopLeft, MiddleLeft, BottomLeft} }
  predicate IsRight(a: Anchor) { a in {TopRight, MiddleRight, BottomRight} }
  predicate IsTop(a: Anchor) { a in {TopLeft, TopCenter, TopRight} }
  predicate IsBottom(a: Anchor) { a in {BottomLeft, BottomCenter, BottomRight} }

  /** `Anchor::calculate_position`: the base corner plus the offset. */
  function CalculatePosition(a: Anchor, screen: Vec2, elem: Vec2, offset: Vec2): (p: Vec2)
    ensures p == Base(a, screen, elem).Add(offset)
    ensures a == TopLeft ==> p == offset
  {
    Base(a, screen, elem).Add(offset)
  }

  /** Where an anchor puts the element, axis by axis: left anchors flush with
      the left edge, right anchors flush with the right edge (the element
      ends exactly at the screen width), the others centred; likewise top,
      bottom and middle on the vertical axis. */
  lemma AnchorPlacement(a: Anchor, screen: Vec2, elem: Vec2)
    ensures var b := Base(a, screen, elem);
            (IsLeft(a) ==> b.x == 0.0) &&
            (IsRight(a) ==> b.x + elem.x == screen.x) &&
            (!IsLeft(a) && !IsRight(a) ==> b.x + elem.x / 2.0 == screen.x / 2.0) &&
            (IsTop(a) ==> b.y == 0.0) &&
            (IsBottom(a) ==> b.y + elem.y == screen.y) &&
            (!IsTop(a) && !IsBottom(a) ==> b.y + elem.y / 2.0 == screen.y / 2.0)
  {
  }
}
