/** Colliders and rigid bodies (engine/physics/collision.rs).

    Euclidean lengths are compared through their squares: for `s >= 0`,
    `sqrt(q) < s` holds exactly when `s > 0 && q < s * s`, so the overlap tests
    below decide the same thing as the source without a square root. */
module Physics {
  import opened Core

  datatype Collider = Box(size: Vec2) | Circle(radius: real)

  /** `length(v) < s`, decided on the squared length. */
  predicate ShorterThan(v: Vec2, s: real)
  {
    s > 0.0 && v.LengthSquared() < s * s
  }

  /** `Collider::check_collision`. The box/circle arm clamps the circle centre
      into the box with `f32::clamp`, which panics when the box has a negative
      width or height, hence the precondition on that arm only. */
  predicate CheckCollision(a: Collider, posA: Vec2, b: Collider, posB: Vec2)
    requires a.Box? && b.Circle? ==> a.size.x >= 0.0 && a.size.y >= 0.0
    requires a.Circle? && b.Box? ==> b.size.x >= 0.0 && b.size.y >= 0.0
    ensures a.Box? && b.Box? ==>
              (CheckCollision(a, posA, b, posB) <==>
                 -(a.size.x + b.size.x) / 2.0 < posA.x - posB.x < (a.size.x + b.size.x) / 2.0 &&
                 -(a.size.y + b.size.y) / 2.0 < posA.y - posB.y < (a.size.y + b.size.y) / 2.0)
    ensures a.Circle? && b.Circle? && CheckCollision(a, posA, b, posB) ==> a.radius + b.radius > 0.0
  {
    match (a, b)
    case (Box(s1), Box(s2)) => Intersects(CenteredRect(posA, s1), CenteredRect(posB, s2))
    case (Circle(r1), Circle(r2)) => ShorterThan(posB.Sub(posA), r1 + r2)
    case (Box(s), Circle(r)) => BoxCircle(posA, s, posB, r)
    case (Circle(r), Box(s)) => BoxCircle(posB, s, posA, r)
  }

  /** The box/circle arm: the distance from the circle centre to the closest
      point of the box is below the radius. */
  predicate BoxCircle(boxPos: Vec2, size: Vec2, circlePos: Vec2, radius: real)
    requires size.x >= 0.0 && size.y >= 0.0
  {
    ShorterThan(circlePos.Sub(ClosestPoint(boxPos, size, circlePos)), radius)
  }

  /** The point of the box (centred on `boxPos`) nearest to `p`. */
  function ClosestPoint(boxPos: Vec2, size: Vec2, p: Vec2): (q: Vec2)
    requires size.x >= 0.0 && size.y >= 0.0
    ensures boxPos.x - size.x / 2.0 <= q.x <= boxPos.x + size.x / 2.0
    ensures boxPos.y - size.y / 2.0 <= q.y <= boxPos.y + size.y / 2.0
    ensures boxPos.x - size.x / 2.0 <= p.x <= boxPos.x + size.x / 2.0 ==> q.x == p.x
    ensures boxPos.y - size.y / 2.0 <= p.y <= boxPos.y + size.y / 2.0 ==> q.y == p.y
  {
    var rect := CenteredRect(boxPos, size);
    Vec2(Clamp(p.x, rect.x, rect.x + rect.width), Clamp(p.y, rect.y, rect.y + rect.height))
  }

  /** Circle/circle overlap does not depend on which collider is asked. */
  lemma CircleCollisionSymmetric(r1: real, p1: Vec2, r2: real, p2: Vec2)
    ensures CheckCollision(Circle(r1), p1, Circle(r2), p2) == CheckCollision(Circle(r2), p2, Circle(r1), p1)
  {
    assert p1.Sub(p2).LengthSquared() == p2.Sub(p1).LengthSquared();
  }

  /** Box/circle overlap does not depend on which collider is asked: the box
      position always goes with the box size. */
  lemma BoxCircleSymmetric(size: Vec2, p1: Vec2, r: real, p2: Vec2)
    requires size.x >= 0.0 && size.y >= 0.0
    ensures CheckCollision(Box(size), p1, Circle(r), p2) == CheckCollision(Circle(r), p2, Box(size), p1)
  {
  }

  /** Box/box overlap is symmetric. */
  lemma BoxBoxSymmetric(s1: Vec2, p1: Vec2, s2: Vec2, p2: Vec2)
    ensures CheckCollision(Box(s1), p1, Box(s2), p2) == CheckCollision(Box(s2), p2, Box(s1), p1)
  {
  }

  /** A square shorter than `r * r` bounds the value itself. */
  lemma SquareBound(d: real, e: real, r: real)
    requires r > 0.0 && d * d + e * e < r * r
    ensures -r < d < r
  {
    assert (r - d) * (r + d) > 0.0;
  }

  /** A circle that touches a box always overlaps the box's rectangle with its
      own bounding square: the exact test is never looser than the coarse one. */
  lemma {:induction false} BoxCircleWithinBounds(boxPos: Vec2, size: Vec2, c: Vec2, r: real)
    requires size.x >= 0.0 && size.y >= 0.0
    requires BoxCircle(boxPos, size, c, r)
    ensures Intersects(CenteredRect(boxPos, size), CenteredRect(c, Vec2(2.0 * r, 2.0 * r)))
  {
    var d := c.Sub(ClosestPoint(boxPos, size, c));
    SquareBound(d.x, d.y, r);
    SquareBound(d.y, d.x, r);
  }

  /** A circle of positive radius whose centre lies inside the box collides. */
  lemma {:induction false} CentreInsideBoxCollides(boxPos: Vec2, size: Vec2, c: Vec2, r: real)
    requires size.x >= 0.0 && size.y >= 0.0 && r > 0.0
    requires boxPos.x - size.x / 2.0 <= c.x <= boxPos.x + size.x / 2.0
    requires boxPos.y - size.y / 2.0 <= c.y <= boxPos.y + size.y / 2.0
    ensures CheckCollision(Box(size), boxPos, Circle(r), c)
  {
    var d := c.Sub(ClosestPoint(boxPos, size, c));
    assert d == Vec2(0.0, 0.0);
    calc {
      CheckCollision(Box(size), boxPos, Circle(r), c);
      ==
      ShorterThan(d, r);
      == { assert d == Vec2(0.0, 0.0); }
      ShorterThan(Vec2(0.0, 0.0), r);
      == { ZeroIsShorter(r); }
      true;
    }
  }

  lemma ZeroIsShorter(r: real)
    requires r > 0.0
    ensures ShorterThan(Vec2(0.0, 0.0), r)
  {
    calc {
      Vec2(0.0, 0.0).LengthSquared();
      ==
      0.0;
      <
      r * r;
    }
  }

  /** The rigid-body component. */
  datatype RigidBody = RigidBody(velocity: Vec2, acceleration: Vec2, mass: real, drag: real)

  /** `RigidBody::new`. */
  function NewBody(mass: real): (b: RigidBody)
    ensures b.velocity == Zero && b.acceleration == Zero
    ensures b.mass == mass && b.drag == 0.1
  {
    RigidBody(Zero, Zero, mass, 0.1)
  }

  /** `RigidBody::default`. */
  function DefaultBody(): (b: RigidBody)
    ensures b.velocity == Zero && b.acceleration == Zero && b.mass == 1.0 && b.drag == 0.1
  {
    NewBody(1.0)
  }

  /** `RigidBody::apply_force`: the acceleration grows by `force / mass`
      (a zero mass would make the `f32` division infinite; see README). */
  function ApplyForce(b: RigidBody, force: Vec2): (r: RigidBody)
    requires b.mass != 0.0
    ensures r.acceleration.Scale(b.mass) == b.acceleration.Scale(b.mass).Add(force)
    ensures r.velocity == b.velocity && r.mass == b.mass && r.drag == b.drag
  {
    b.(acceleration := b.acceleration.Add(Vec2(force.x / b.mass, force.y / b.mass)))
  }

  /** `RigidBody::update`: integrate the accumulated acceleration, apply the
      linear drag factor and clear the acceleration. */
  function Integrate(b: RigidBody, dt: real): (r: RigidBody)
    ensures r.acceleration == Zero && r.mass == b.mass && r.drag == b.drag
    ensures r.velocity == b.velocity.Add(b.acceleration.Scale(dt)).Scale(1.0 - b.drag * dt)
  {
    b.(velocity := b.velocity.Add(b.acceleration.Scale(dt)).Scale(1.0 - b.drag * dt),
       acceleration := Zero)
  }

  /** Forces accumulate: applying two forces one after the other is the same as
      applying their sum. */
  lemma {:induction false} ForcesAccumulate(b: RigidBody, f1: Vec2, f2: Vec2)
    requires b.mass != 0.0
    ensures ApplyForce(ApplyForce(b, f1), f2) == ApplyForce(b, f1.Add(f2))
  {
    var m := b.mass;
    assert f1.x / m + f2.x / m == (f1.x + f2.x) / m;
    assert f1.y / m + f2.y / m == (f1.y + f2.y) / m;
  }

  /** With no accumulated acceleration, an update only scales the velocity by
      the drag factor; in particular a second update in the same frame does. */
  lemma {:induction false} IntegrateWithoutForce(b: RigidBody, dt: real)
    requires b.acceleration == Zero
    ensures Integrate(b, dt).velocity == b.velocity.Scale(1.0 - b.drag * dt)
    ensures Integrate(b, dt) == b.(velocity := b.velocity.Scale(1.0 - b.drag * dt))
  {
  }

  lemma PositiveProduct(x: real, y: real)
    requires x > 0.0 && y > 0.0
    ensures x * y > 0.0
  {
  }

  /** A body at rest under gravity `g` for one step of `dt` moves downwards when
      the drag factor stays positive. */
  lemma {:induction false} GravityPullsDown(mass: real, g: real, dt: real)
    requires mass > 0.0 && g > 0.0 && dt > 0.0 && 0.1 * dt < 1.0
    ensures Integrate(ApplyForce(NewBody(mass), Vec2(0.0, g)), dt).velocity.y > 0.0
    ensures Integrate(ApplyForce(NewBody(mass), Vec2(0.0, g)), dt).velocity.x == 0.0
  {
    var a := g / mass;
    var b := Integrate(ApplyForce(NewBody(mass), Vec2(0.0, g)), dt);
    assert ApplyForce(NewBody(mass), Vec2(0.0, g)).acceleration == Vec2(0.0, a);
    assert b.velocity.y == (0.0 + a * dt) * (1.0 - 0.1 * dt);
    PositiveProduct(a, dt);
    PositiveProduct(a * dt, 1.0 - 0.1 * dt);
  }
}
