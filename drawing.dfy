/**
 * The value types of System.Drawing that the arc renderer uses (PointF,
 * RectangleF), the degree/radian conversion it performs, and the meaning
 * GDI+ gives to an arc: the point at a given angle on the circle inscribed
 * in a square.
 *
 * Coordinates are `real`, not single-precision floats. MathF.Sin and
 * MathF.Cos are not computed: they are handed in as a `Trig` record, and a
 * lemma that needs a trigonometric fact states it as a hypothesis.
 */
module Drawing {

  /** A PointF. */
  datatype Point = Point(x: real, y: real)

  /** A RectangleF: top-left corner, width and height. */
  datatype Rect = Rect(x: real, y: real, width: real, height: real)

  /** The sine and cosine the renderer calls (MathF.Sin, MathF.Cos). */
  datatype Trig = Trig(sin: real -> real, cos: real -> real)

  /** MathF.PI: the single-precision value nearest to pi, 13176795 / 2^22. */
  const PI: real := 3.1415927410125732421875

  /** The conversion the renderer applies to its angles: `a / MathF.PI * 180`. */
  function Degrees(radians: real): (deg: real)
    ensures deg < 0.0 <==> radians < 0.0
    ensures radians == 0.0 ==> deg == 0.0
  {
    // PI written out, so that the division is by a literal
    radians / 3.1415927410125732421875 * 180.0
  }

  /**
   * The inverse of `Degrees`, with the same constant: how this model reads
   * the degree angles of an arc back as radians (GDI+ uses a pi of its own).
   */
  function Radians(deg: real): (rad: real)
    ensures rad < 0.0 <==> deg < 0.0
  {
    deg / 180.0 * 3.1415927410125732421875
  }

  /** Converting to degrees and back loses nothing, and degrees keep the order of radians. */
  lemma DegreesRoundTrip(a: real, b: real)
    ensures Radians(Degrees(a)) == a
    ensures Degrees(Radians(a)) == a
    ensures a < b <==> Degrees(a) < Degrees(b)
    ensures Degrees(a) - Degrees(b) == Degrees(a - b)
    ensures Radians(Degrees(a) + 180.0) == a + PI && Radians(Degrees(a) - 180.0) == a - PI
  {
  }

  /** The point half-way between `p` and `q`. */
  function Midpoint(p: Point, q: Point): (m: Point)
    ensures m.x - p.x == q.x - m.x && m.y - p.y == q.y - m.y
  {
    Point((p.x + q.x) / 2.0, (p.y + q.y) / 2.0)
  }

  /** The point at distance `r` from `c` in the direction (cosA, sinA). */
  function OnRay(c: Point, cosA: real, sinA: real, r: real): (q: Point)
  {
    Point(c.x + cosA * r, c.y + sinA * r)
  }

  /** Half-way between two points on one ray is the point at the mean distance. */
  lemma MidpointOnRay(c: Point, cosA: real, sinA: real, r1: real, r2: real)
    ensures Midpoint(OnRay(c, cosA, sinA, r1), OnRay(c, cosA, sinA, r2)) == OnRay(c, cosA, sinA, (r1 + r2) / 2.0)
  {
    assert cosA * r1 + cosA * r2 == cosA * (r1 + r2);
    assert sinA * r1 + sinA * r2 == sinA * (r1 + r2);
  }

  /** Going `r1` along a ray and then `r2` further in the same direction is going `r1 + r2`. */
  lemma OnRayCompose(c: Point, cosA: real, sinA: real, r1: real, r2: real)
    ensures OnRay(OnRay(c, cosA, sinA, r1), cosA, sinA, r2) == OnRay(c, cosA, sinA, r1 + r2)
  {
    assert cosA * r1 + cosA * r2 == cosA * (r1 + r2);
    assert sinA * r1 + sinA * r2 == sinA * (r1 + r2);
  }

  /** The square distance between two points. */
  function Dist2(p: Point, q: Point): (d: real)
  {
    (p.x - q.x) * (p.x - q.x) + (p.y - q.y) * (p.y - q.y)
  }

  /** `q` lies on the circle of radius `r` about `c`. */
  predicate OnCircle(q: Point, c: Point, r: real)
  {
    Dist2(q, c) == r * r
  }

  /** `rect` is a square of side `side` whose centre is `c`. */
  predicate CenteredSquare(rect: Rect, c: Point, side: real)
  {
    rect.width == side && rect.height == side &&
    rect.x + side / 2.0 == c.x && rect.y + side / 2.0 == c.y
  }

  /** The bounding square of the circle of radius `half` about `c`. */
  function SquareAround(c: Point, half: real): (rect: Rect)
    ensures CenteredSquare(rect, c, 2.0 * half)
  {
    Rect(c.x - half, c.y - half, half * 2.0, half * 2.0)
  }

  /**
   * The point at `deg` degrees on the circle inscribed in `rect`, where an
   * arc added with that start angle begins (for the squares used here GDI+
   * measures arc angles this way).
   */
  function ArcPoint(trig: Trig, rect: Rect, deg: real): (q: Point)
  {
    var a := Radians(deg);
    Point(rect.x + rect.width / 2.0 + rect.width / 2.0 * trig.cos(a),
          rect.y + rect.height / 2.0 + rect.height / 2.0 * trig.sin(a))
  }

  /**
   * On the bounding square of the circle of radius `r` about `c`, the point
   * at `deg` degrees is `c + r (cos, sin)` of that angle in radians.
   */
  lemma ArcPointAt(trig: Trig, c: Point, r: real, deg: real, cosA: real, sinA: real)
    requires trig.cos(Radians(deg)) == cosA && trig.sin(Radians(deg)) == sinA
    ensures ArcPoint(trig, SquareAround(c, r), deg) == OnRay(c, cosA, sinA, r)
  {
    var rect := SquareAround(c, r);
    assert ArcPoint(trig, rect, deg) == Point(rect.x + rect.width / 2.0 + rect.width / 2.0 * cosA,
                                              rect.y + rect.height / 2.0 + rect.height / 2.0 * sinA);
    assert rect.x + rect.width / 2.0 == c.x && rect.y + rect.height / 2.0 == c.y;
    assert rect.width / 2.0 == r && rect.height / 2.0 == r;
    assert rect.width / 2.0 * cosA == cosA * r;
    assert rect.height / 2.0 * sinA == sinA * r;
  }

  /**
   * An arc on the bounding square of the circle of radius `r` about `c`,
   * at the degree form of the angle `a`, is at the point `c + r (cos a, sin a)`.
   */
  lemma ArcPointOnCircle(trig: Trig, c: Point, r: real, a: real)
    ensures ArcPoint(trig, SquareAround(c, r), Degrees(a)) == OnRay(c, trig.cos(a), trig.sin(a), r)
  {
    DegreesRoundTrip(a, a);
    ArcPointAt(trig, c, r, Degrees(a), trig.cos(a), trig.sin(a));
  }

  /** Going `r` against a direction is going `-r` along it. */
  lemma OnRayReversed(c: Point, cosA: real, sinA: real, r: real)
    ensures OnRay(c, -cosA, -sinA, r) == OnRay(c, cosA, sinA, -r)
  {
    assert -cosA * r == cosA * -r;
    assert -sinA * r == sinA * -r;
  }

  /** A point on a ray with a unit direction lies at distance `r` from the origin of the ray. */
  lemma OnRayDistance(c: Point, cosA: real, sinA: real, r: real)
    requires cosA * cosA + sinA * sinA == 1.0
    ensures OnCircle(OnRay(c, cosA, sinA, r), c, r)
  {
    calc {
      Dist2(OnRay(c, cosA, sinA, r), c);
      (cosA * r) * (cosA * r) + (sinA * r) * (sinA * r);
      (cosA * cosA + sinA * sinA) * (r * r);
      r * r;
    }
  }
}
