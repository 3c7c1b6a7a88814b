/** Circle-versus-rectangle collision by closest-point clamping.

    Coordinates are exact reals: the program computes in single-precision
    floats, and the model does not reproduce their rounding. A circle is
    placed by the top-left corner of its bounding box (as the windowing
    library places shapes), so its centre lies one radius right of and one
    radius below its position. A rectangle is placed by its top-left corner
    and extends by its size. */
module Geometry {

  datatype Vec2 = Vec2(x: real, y: real) {
    function Plus(d: Vec2): Vec2 {
      Vec2(x + d.x, y + d.y)
    }
  }

  function Min(a: real, b: real): real { if a <= b then a else b }
  function Max(a: real, b: real): real { if a >= b then a else b }

  /** The value nearest to `v` in `[lo, hi]`, written as the program writes
      it: `max(lo, min(v, hi))`. */
  function Clamp(v: real, lo: real, hi: real): (r: real)
    ensures lo <= hi ==> lo <= r <= hi
    ensures lo <= v <= hi ==> r == v
    ensures hi < lo ==> r == lo
  {
    Max(lo, Min(v, hi))
  }

  /** Squared Euclidean distance. */
  function SqDist(p: Vec2, q: Vec2): (d: real)
    ensures d >= 0.0
  {
    var dx := p.x - q.x;
    var dy := p.y - q.y;
    SquareNonNegative(dx);
    SquareNonNegative(dy);
    dx * dx + dy * dy
  }

  lemma SquareNonNegative(a: real)
    ensures a * a >= 0.0
  {
  }

  /** Squaring is monotone on values of equal sign ordered away from zero. */
  lemma SquareMonotone(a: real, b: real)
    requires 0.0 <= a <= b
    ensures a * a <= b * b
  {
  }

  /** Squaring is strictly monotone on non-negative values. */
  lemma SquareStrictlyMonotone(a: real, b: real)
    requires 0.0 <= a < b
    ensures a * a < b * b
  {
    var d := b - a;
    assert b * b == a * a + 2.0 * a * d + d * d;
    assert a * d >= 0.0;
    assert d * d > 0.0;
  }

  /** Only zero has a square that is not positive. */
  lemma SquareZero(a: real)
    requires a * a <= 0.0
    ensures a == 0.0
  {
    if a > 0.0 {
      SquareStrictlyMonotone(0.0, a);
    } else if a < 0.0 {
      SquareStrictlyMonotone(0.0, -a);
    }
  }

  /** Two points are at squared distance zero only when they coincide. */
  lemma SqDistZero(p: Vec2, q: Vec2)
    requires SqDist(p, q) <= 0.0
    ensures p == q
  {
    var dx := p.x - q.x;
    var dy := p.y - q.y;
    SquareNonNegative(dx);
    SquareNonNegative(dy);
    SquareZero(dx);
    SquareZero(dy);
  }

  /** The centre of a circle whose bounding box starts at `pos`. */
  function CircleCentre(pos: Vec2, radius: real): Vec2 {
    pos.Plus(Vec2(radius, radius))
  }

  /** Whether `p` lies in the closed rectangle at `rectPos` of size `rectSize`. */
  predicate InRect(p: Vec2, rectPos: Vec2, rectSize: Vec2) {
    rectPos.x <= p.x <= rectPos.x + rectSize.x &&
    rectPos.y <= p.y <= rectPos.y + rectSize.y
  }

  /** The point of the rectangle nearest to `c`, clamped axis by axis. */
  function ClosestPoint(c: Vec2, rectPos: Vec2, rectSize: Vec2): (q: Vec2)
    ensures rectSize.x >= 0.0 && rectSize.y >= 0.0 ==> InRect(q, rectPos, rectSize)
    ensures InRect(c, rectPos, rectSize) ==> q == c
  {
    Vec2(Clamp(c.x, rectPos.x, rectPos.x + rectSize.x),
         Clamp(c.y, rectPos.y, rectPos.y + rectSize.y))
  }

  /** checkCollision: the circle touches the rectangle when the squared
      distance from its centre to the clamped point is at most the squared
      radius (a tangent circle counts). */
  predicate CheckCollision(circlePos: Vec2, radius: real, rectPos: Vec2, rectSize: Vec2) {
    var centre := CircleCentre(circlePos, radius);
    SqDist(centre, ClosestPoint(centre, rectPos, rectSize)) <= radius * radius
  }

  /** Reference definition, independent of clamping: some point of the
      rectangle lies within `radius` of the centre. */
  ghost predicate Touches(centre: Vec2, radius: real, rectPos: Vec2, rectSize: Vec2) {
    exists q :: InRect(q, rectPos, rectSize) && SqDist(centre, q) <= radius * radius
  }

  /** On one axis, the clamped value is at least as near to `v` as any value
      of the interval. */
  lemma ClampIsNearest(v: real, lo: real, hi: real, q: real)
    requires lo <= q <= hi
    ensures (v - Clamp(v, lo, hi)) * (v - Clamp(v, lo, hi)) <= (v - q) * (v - q)
  {
  }

  /** The clamped point is a nearest point of the rectangle. */
  lemma ClosestPointIsNearest(c: Vec2, rectPos: Vec2, rectSize: Vec2, q: Vec2)
    requires InRect(q, rectPos, rectSize)
    ensures SqDist(c, ClosestPoint(c, rectPos, rectSize)) <= SqDist(c, q)
  {
    ClampIsNearest(c.x, rectPos.x, rectPos.x + rectSize.x, q.x);
    ClampIsNearest(c.y, rectPos.y, rectPos.y + rectSize.y, q.y);
  }

  /** checkCollision agrees with the reference definition for every circle
      and every rectangle of non-negative size. */
  lemma CheckCollisionIffTouches(circlePos: Vec2, radius: real, rectPos: Vec2, rectSize: Vec2)
    requires rectSize.x >= 0.0 && rectSize.y >= 0.0
    ensures CheckCollision(circlePos, radius, rectPos, rectSize)
        <==> Touches(CircleCentre(circlePos, radius), radius, rectPos, rectSize)
  {
    var centre := CircleCentre(circlePos, radius);
    var closest := ClosestPoint(centre, rectPos, rectSize);
    if CheckCollision(circlePos, radius, rectPos, rectSize) {
      assert InRect(closest, rectPos, rectSize);
    }
    if Touches(centre, radius, rectPos, rectSize) {
      var q :| InRect(q, rectPos, rectSize) && SqDist(centre, q) <= radius * radius;
      ClosestPointIsNearest(centre, rectPos, rectSize, q);
    }
  }

  /** A circle whose centre is inside the rectangle collides whatever its
      radius, zero and negative radii included. */
  lemma CentreInsideCollides(circlePos: Vec2, radius: real, rectPos: Vec2, rectSize: Vec2)
    requires InRect(CircleCentre(circlePos, radius), rectPos, rectSize)
    ensures CheckCollision(circlePos, radius, rectPos, rectSize)
  {
  }

  /** With radius zero the circle is a point and collides exactly when it lies
      in the rectangle (for a rectangle of non-negative size). */
  lemma ZeroRadiusIsPointInRect(circlePos: Vec2, rectPos: Vec2, rectSize: Vec2)
    requires rectSize.x >= 0.0 && rectSize.y >= 0.0
    ensures CheckCollision(circlePos, 0.0, rectPos, rectSize) <==> InRect(circlePos, rectPos, rectSize)
  {
    var centre := CircleCentre(circlePos, 0.0);
    assert centre == circlePos;
    if CheckCollision(circlePos, 0.0, rectPos, rectSize) {
      SqDistZero(centre, ClosestPoint(centre, rectPos, rectSize));
    }
  }

  /** The comparison is not strict: the squared radius is what matters, so a
      negative radius collides exactly as its absolute value would from the
      same centre. */
  lemma NegativeRadiusActsAsAbsolute(centre: Vec2, radius: real, rectPos: Vec2, rectSize: Vec2)
    requires radius < 0.0
    ensures CheckCollision(Vec2(centre.x - radius, centre.y - radius), radius, rectPos, rectSize)
        <==> CheckCollision(Vec2(centre.x + radius, centre.y + radius), -radius, rectPos, rectSize)
  {
  }

  /** A centre straight below the bottom edge, within the horizontal extent of
      the rectangle, collides exactly when its gap to that edge is at most the
      radius: tangency at a gap of exactly `radius` counts. */
  lemma BelowBottomEdge(circlePos: Vec2, radius: real, rectPos: Vec2, rectSize: Vec2)
    requires radius >= 0.0 && rectSize.x >= 0.0 && rectSize.y >= 0.0
    requires rectPos.x <= CircleCentre(circlePos, radius).x <= rectPos.x + rectSize.x
    requires CircleCentre(circlePos, radius).y >= rectPos.y + rectSize.y
    ensures CheckCollision(circlePos, radius, rectPos, rectSize)
        <==> CircleCentre(circlePos, radius).y - (rectPos.y + rectSize.y) <= radius
  {
    var centre := CircleCentre(circlePos, radius);
    var gap := centre.y - (rectPos.y + rectSize.y);
    var closest := ClosestPoint(centre, rectPos, rectSize);
    assert closest == Vec2(centre.x, rectPos.y + rectSize.y);
    assert SqDist(centre, closest) == gap * gap;
    if gap <= radius {
      SquareMonotone(gap, radius);
    } else {
      SquareStrictlyMonotone(radius, gap);
    }
  }

  /** A gap wider than the radius between the centre and the rectangle's
      extent on either axis rules a collision out. */
  lemma SeparatedOnAxis(circlePos: Vec2, radius: real, rectPos: Vec2, rectSize: Vec2)
    requires radius >= 0.0 && rectSize.x >= 0.0 && rectSize.y >= 0.0
    requires var c := CircleCentre(circlePos, radius);
             c.x + radius < rectPos.x || c.x - radius > rectPos.x + rectSize.x ||
             c.y + radius < rectPos.y || c.y - radius > rectPos.y + rectSize.y
    ensures !CheckCollision(circlePos, radius, rectPos, rectSize)
  {
    var c := CircleCentre(circlePos, radius);
    var q := ClosestPoint(c, rectPos, rectSize);
    var dx := c.x - q.x;
    var dy := c.y - q.y;
    SquareNonNegative(dx);
    SquareNonNegative(dy);
    if c.x + radius < rectPos.x {
      SquareStrictlyMonotone(radius, -dx);
      assert dx * dx == (-dx) * (-dx);
    } else if c.x - radius > rectPos.x + rectSize.x {
      SquareStrictlyMonotone(radius, dx);
    } else if c.y + radius < rectPos.y {
      SquareStrictlyMonotone(radius, -dy);
      assert dy * dy == (-dy) * (-dy);
    } else {
      SquareStrictlyMonotone(radius, dy);
    }
  }
}
