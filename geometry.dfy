/**
 * Axis-aligned boxes, circles and the two overlap tests of the runner
 * (renderer.js `isColliding` and `hitEnemy`). All coordinates are exact
 * reals; the canvas y axis grows downwards.
 */
module Geometry {

  /** A box with its left/top corner at (x, y). */
  datatype Rect = Rect(x: real, y: real, width: real, height: real)

  datatype Circle = Circle(x: real, y: real, radius: real)

  /** JavaScript's Math.min / Math.max on two numbers. */
  function Min(a: real, b: real): real { if a <= b then a else b }
  function Max(a: real, b: real): real { if a >= b then a else b }

  /** The point of [lo, hi] closest to v, computed as Math.max(lo, Math.min(v, hi)). */
  function Clamp(v: real, lo: real, hi: real): real { Max(lo, Min(v, hi)) }

  function SqDist(x1: real, y1: real, x2: real, y2: real): real {
    (x1 - x2) * (x1 - x2) + (y1 - y2) * (y1 - y2)
  }

  /** Box/circle test: the point of the box closest to the centre lies strictly inside the circle. */
  predicate IsColliding(rect: Rect, circle: Circle)
    ensures IsColliding(rect, circle) ==> circle.radius != 0.0
  {
    var closestX := Clamp(circle.x, rect.x, rect.x + rect.width);
    var closestY := Clamp(circle.y, rect.y, rect.y + rect.height);
    var dx := circle.x - closestX;
    var dy := circle.y - closestY;
    assert 0.0 <= dx * dx && 0.0 <= dy * dy;
    dx * dx + dy * dy < circle.radius * circle.radius
  }

  /** Box/box test: the open intervals overlap on both axes. */
  predicate HitEnemy(rect: Rect, enemy: Rect)
    ensures HitEnemy(rect, enemy) ==> rect.width + enemy.width > 0.0 && rect.height + enemy.height > 0.0
  {
    && rect.x < enemy.x + enemy.width
    && rect.x + rect.width > enemy.x
    && rect.y < enemy.y + enemy.height
    && rect.y + rect.height > enemy.y
  }

  /** (px, py) lies in the open interior of r. */
  ghost predicate Interior(r: Rect, px: real, py: real) {
    r.x < px < r.x + r.width && r.y < py < r.y + r.height
  }

  /** (px, py) lies in r, edges included. */
  ghost predicate Within(r: Rect, px: real, py: real) {
    r.x <= px <= r.x + r.width && r.y <= py <= r.y + r.height
  }

  lemma HitEnemySymmetric(a: Rect, b: Rect)
    ensures HitEnemy(a, b) <==> HitEnemy(b, a)
  {
  }

  /** For boxes of positive size, HitEnemy holds exactly when the two interiors share a point. */
  lemma HitEnemyIffCommonPoint(a: Rect, b: Rect)
    requires a.width > 0.0 && a.height > 0.0 && b.width > 0.0 && b.height > 0.0
    ensures HitEnemy(a, b) <==> exists px, py :: Interior(a, px, py) && Interior(b, px, py)
  {
    if HitEnemy(a, b) {
      var px := (Max(a.x, b.x) + Min(a.x + a.width, b.x + b.width)) / 2.0;
      var py := (Max(a.y, b.y) + Min(a.y + a.height, b.y + b.height)) / 2.0;
      assert Interior(a, px, py) && Interior(b, px, py);
    }
  }

  lemma SquareMonotone(a: real, b: real)
    requires 0.0 <= a <= b
    ensures a * a <= b * b
  {
    calc {
      a * a;
    <= { assert a * (b - a) >= 0.0 by { assert b - a >= 0.0; } }
      a * b;
    <= { assert (b - a) * b >= 0.0 by { assert b - a >= 0.0; } }
      b * b;
    }
  }

  /** The clamped value is at least as close to v as any point of [lo, hi]. */
  lemma ClampIsNearest(v: real, lo: real, hi: real, p: real)
    requires lo <= p <= hi
    ensures (v - Clamp(v, lo, hi)) * (v - Clamp(v, lo, hi)) <= (v - p) * (v - p)
  {
    var q := Clamp(v, lo, hi);
    if v < lo {
      assert q == lo;
      SquareMonotone(lo - v, p - v);
      assert (v - q) * (v - q) == (lo - v) * (lo - v);
      assert (v - p) * (v - p) == (p - v) * (p - v);
    } else if v > hi {
      assert q == hi;
      SquareMonotone(v - hi, v - p);
    } else {
      assert q == v;
      assert 0.0 <= (v - p) * (v - p);
    }
  }

  /**
   * For a box of non-negative size, IsColliding holds exactly when some point
   * of the box (edges included) is strictly closer to the centre than the radius.
   */
  lemma IsCollidingIffNearPoint(r: Rect, c: Circle)
    requires r.width >= 0.0 && r.height >= 0.0
    ensures IsColliding(r, c) <==>
      exists px, py :: Within(r, px, py) && SqDist(c.x, c.y, px, py) < c.radius * c.radius
  {
    var qx := Clamp(c.x, r.x, r.x + r.width);
    var qy := Clamp(c.y, r.y, r.y + r.height);
    assert Within(r, qx, qy);
    assert IsColliding(r, c) <==> SqDist(c.x, c.y, qx, qy) < c.radius * c.radius;
    forall px, py | Within(r, px, py)
      ensures SqDist(c.x, c.y, qx, qy) <= SqDist(c.x, c.y, px, py)
    {
      ClampIsNearest(c.x, r.x, r.x + r.width, px);
      ClampIsNearest(c.y, r.y, r.y + r.height, py);
    }
  }

  /** A circle of positive radius whose centre lies in the box always collides with it. */
  lemma CentreInsideCollides(r: Rect, c: Circle)
    requires Within(r, c.x, c.y) && c.radius > 0.0
    ensures IsColliding(r, c)
  {
    var dx := c.x - Clamp(c.x, r.x, r.x + r.width);
    var dy := c.y - Clamp(c.y, r.y, r.y + r.height);
    assert dx == 0.0 && dy == 0.0;
    calc {
      dx * dx + dy * dy;
    ==
      0.0;
    <  { assert c.radius * c.radius > 0.0; }
      c.radius * c.radius;
    }
  }
}
