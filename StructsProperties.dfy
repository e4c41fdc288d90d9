/**
 * What the assertions of `Structs` guarantee about real space: a sphere
 * accepted by a plane lies, as a closed ball, strictly on the inner side;
 * a box accepts exactly the spheres whose bounding cube misses it; a
 * room's checks are the conjunction of its planes' and boxes' checks.
 */
module StructsProperties {
  import opened Results
  import opened Zk3d
  import opened Structs

  lemma CastMul(a: int, b: int)
    ensures (a * b) as real == a as real * b as real
  {
  }

  function RCross(a: Point, b: Point): Point
  {
    Point(a.y * b.z - a.z * b.y, a.z * b.x - a.x * b.z, a.x * b.y - a.y * b.x)
  }

  /** Lagrange's identity |a|^2 |b|^2 - (a . b)^2 == |a x b|^2. */
  lemma LagrangeIdentity(a: Point, b: Point)
    ensures RDot(a, a) * RDot(b, b) - RDot(a, b) * RDot(a, b) == RDot(RCross(a, b), RCross(a, b))
  {
  }

  /** Cauchy-Schwarz: (a . b)^2 <= |a|^2 |b|^2. */
  lemma CauchySchwarz(a: Point, b: Point)
    ensures RDot(a, b) * RDot(a, b) <= RDot(a, a) * RDot(b, b)
  {
    LagrangeIdentity(a, b);
    var c := RCross(a, b);
    assert RDot(c, c) >= 0.0;
  }

  lemma SquareMonotone(a: real, b: real)
    requires 0.0 <= a <= b
    ensures a * a <= b * b
  {
    assert a * a <= a * b;
  }

  lemma MulMonotone(k: real, a: real, b: real)
    requires 0.0 <= k && a <= b
    ensures k * a <= k * b
  {
  }

  /** The real signed distance at an integer point is the integer one. */
  lemma RealSignedDistanceAt(pl: Plane, v: Vector3)
    ensures RealSignedDistance(pl, AsPoint(v)) == SignedDistance(pl, v) as real
  {
    CastMul(pl.normal.x, v.x);
    CastMul(pl.normal.y, v.y);
    CastMul(pl.normal.z, v.z);
  }

  /** Moving from the centre by d changes the signed distance by n . d. */
  lemma RealSignedDistanceShift(pl: Plane, c: Vector3, p: Point)
    ensures RealSignedDistance(pl, p)
         == SignedDistance(pl, c) as real + RDot(AsPoint(pl.normal), RSub(p, AsPoint(c)))
  {
    RealSignedDistanceAt(pl, c);
    var n := AsPoint(pl.normal);
    var q := AsPoint(c);
    assert RDot(n, RSub(p, q)) == RDot(n, p) - RDot(n, q);
  }

  /** The inner-side test read over the reals. */
  lemma InnerSideOverReals(pl: Plane, o: Object3D)
    requires IsOnInnerSide(pl, o)
    ensures SignedDistance(pl, o.center) as real < 0.0
    ensures (SignedDistance(pl, o.center) as real) * (SignedDistance(pl, o.center) as real)
            > (o.radius * o.radius) as real * RDot(AsPoint(pl.normal), AsPoint(pl.normal))
  {
    var s0 := SignedDistance(pl, o.center);
    CastMul(s0, s0);
    CastMul(o.radius * o.radius, Dot(pl.normal, pl.normal));
    RealDotAt(pl.normal);
  }

  /** A shift smaller in magnitude than a negative value keeps it negative. */
  lemma ShiftStaysNegative(s: real, x: real)
    requires s < 0.0 && x * x < s * s
    ensures s + x < 0.0
  {
    if s + x >= 0.0 {
      SquareMonotone(-s, x);
    }
  }

  /** An accepted sphere lies, as a closed ball, strictly on the inner side. */
  lemma InnerSideKeepsBallInside(pl: Plane, o: Object3D, p: Point)
    requires IsOnInnerSide(pl, o)
    requires InBall(p, o)
    ensures RealSignedDistance(pl, p) < 0.0
  {
    var n := AsPoint(pl.normal);
    var v := RSub(p, AsPoint(o.center));
    var s := SignedDistance(pl, o.center) as real;
    var r2 := (o.radius * o.radius) as real;
    RealSignedDistanceShift(pl, o.center, p);
    CauchySchwarz(n, v);
    assert RDot(n, n) >= 0.0;
    MulMonotone(RDot(n, n), RDot(v, v), r2);
    InnerSideOverReals(pl, o);
    ShiftStaysNegative(s, RDot(n, v));
  }

  lemma RealDotAt(v: Vector3)
    ensures RDot(AsPoint(v), AsPoint(v)) == Dot(v, v) as real
  {
    CastMul(v.x, v.x);
    CastMul(v.y, v.y);
    CastMul(v.z, v.z);
  }

  /** The displacement from the centre to the foot of the perpendicular. */
  function FootOffset(n: Point, s: real): Point
    requires RDot(n, n) > 0.0
  {
    var t := s / RDot(n, n);
    Point(-t * n.x, -t * n.y, -t * n.z)
  }

  lemma FootOffsetProperties(n: Point, s: real)
    requires RDot(n, n) > 0.0
    ensures RDot(n, FootOffset(n, s)) == -s
    ensures RDot(FootOffset(n, s), FootOffset(n, s)) == s * s / RDot(n, n)
  {
    var nn := RDot(n, n);
    var t := s / nn;
    var d := FootOffset(n, s);
    assert RDot(n, d) == -t * nn;
    assert t * nn == s;
    assert RDot(d, d) == t * t * nn;
    assert t * t * nn == (t * nn) * (t * nn) / nn;
  }

  lemma DivBound(a: real, b: real, k: real)
    requires k > 0.0 && a <= b * k
    ensures a / k <= b
  {
  }

  /** The foot of the perpendicular from a centre with s < 0 and s^2 <= r^2 |n|^2. */
  lemma FootOfPerpendicularInBall(pl: Plane, o: Object3D)
    requires SignedDistance(pl, o.center) < 0
    requires Dot(pl.normal, pl.normal) > 0
    requires SignedDistance(pl, o.center) * SignedDistance(pl, o.center)
          <= o.radius * o.radius * Dot(pl.normal, pl.normal)
    ensures exists p :: InBall(p, o) && RealSignedDistance(pl, p) >= 0.0
  {
    var c := AsPoint(o.center);
    var s0 := SignedDistance(pl, o.center);
    var nn0 := Dot(pl.normal, pl.normal);
    var r2 := o.radius * o.radius;
    var n := AsPoint(pl.normal);
    var nn := nn0 as real;
    var s := s0 as real;
    assert RDot(n, n) == nn by { RealDotAt(pl.normal); }
    var d := FootOffset(n, s);
    FootOffsetProperties(n, s);
    var f := Point(c.x + d.x, c.y + d.y, c.z + d.z);
    assert RSub(f, c) == d;
    assert RealSignedDistance(pl, f) == 0.0 by {
      RealSignedDistanceShift(pl, o.center, f);
    }
    assert s * s <= (r2 as real) * nn by {
      CastMul(s0, s0);
      CastMul(r2, nn0);
    }
    assert DistSq(f, o.center) <= r2 as real by {
      DivBound(s * s, r2 as real, nn);
    }
    assert (o.radius * o.radius) as real == r2 as real;
    assert InBall(f, o);
  }

  /**
   * A rejected sphere touches or crosses the plane: some point of its closed
   * ball is on the plane or beyond (the centre itself, or the foot of the
   * perpendicular from the centre).
   */
  lemma RejectedBallReachesPlane(pl: Plane, o: Object3D)
    requires !IsOnInnerSide(pl, o)
    ensures exists p :: InBall(p, o) && RealSignedDistance(pl, p) >= 0.0
  {
    var s0 := SignedDistance(pl, o.center);
    if s0 >= 0 {
      var c := AsPoint(o.center);
      RealSignedDistanceAt(pl, o.center);
      assert InBall(c, o);
    } else {
      var nn0 := Dot(pl.normal, pl.normal);
      var r2 := o.radius * o.radius;
      assert s0 * s0 <= r2 * nn0;
      assert nn0 > 0 by {
        DotSelfNonNegative(pl.normal);
        assert s0 * s0 > 0;
      }
      FootOfPerpendicularInBall(pl, o);
    }
  }

  /** The plane accepts a sphere exactly when its closed ball lies strictly inside. */
  lemma InnerSideIffBallInside(pl: Plane, o: Object3D)
    ensures IsOnInnerSide(pl, o) <==> forall p :: InBall(p, o) ==> RealSignedDistance(pl, p) < 0.0
  {
    if IsOnInnerSide(pl, o) {
      forall p | InBall(p, o) ensures RealSignedDistance(pl, p) < 0.0 {
        InnerSideKeepsBallInside(pl, o, p);
      }
    } else {
      RejectedBallReachesPlane(pl, o);
    }
  }

  /** p lies in the closed box. */
  predicate InBox(b: Box, p: Point)
  {
    && b.minX as real <= p.x <= b.maxX as real
    && b.minY as real <= p.y <= b.maxY as real
    && b.minZ as real <= p.z <= b.maxZ as real
  }

  /** p lies in the axis-aligned cube that bounds the object's sphere. */
  predicate InBoundingCube(p: Point, o: Object3D)
  {
    && (o.center.x - o.radius) as real <= p.x <= (o.center.x + o.radius) as real
    && (o.center.y - o.radius) as real <= p.y <= (o.center.y + o.radius) as real
    && (o.center.z - o.radius) as real <= p.z <= (o.center.z + o.radius) as real
  }

  function Clamp(v: int, lo: int, hi: int): int
  {
    if v < lo then lo else if v > hi then hi else v
  }

  /**
   * The separating-axis test is exact for the sphere's bounding cube: a
   * well-formed box accepts the object iff no point of the box lies in the
   * cube (so a sphere near a box corner is rejected when its cube, though
   * not the sphere itself, reaches the box).
   */
  lemma OutsideIffBoundingCubeMissesBox(b: Box, o: Object3D)
    requires WellFormed(b) && o.radius >= 0
    ensures AssertObjectIsOutside(b, o).Pass? <==> forall p :: InBox(b, p) ==> !InBoundingCube(p, o)
  {
    if !IsOutside(b, o) {
      var q := Vector3(Clamp(o.center.x, b.minX, b.maxX),
                       Clamp(o.center.y, b.minY, b.maxY),
                       Clamp(o.center.z, b.minZ, b.maxZ));
      var c, r := o.center, o.radius;
      assert c.x - r <= q.x <= c.x + r && c.y - r <= q.y <= c.y + r && c.z - r <= q.z <= c.z + r;
      assert InBox(b, AsPoint(q));
      assert InBoundingCube(AsPoint(q), o);
    }
  }

  lemma SquareStrictlyMonotone(a: real, b: real)
    requires 0.0 <= a < b
    ensures a * a < b * b
  {
    MulMonotone(a, a, b);
    PositiveProduct(b, b - a);
    calc {
      a * a;
    <= a * b;
    <  a * b + b * (b - a);
    == b * b;
    }
  }

  lemma PositiveProduct(x: real, y: real)
    requires x > 0.0 && y > 0.0
    ensures x * y > 0.0
  {
  }

  lemma SquareBound(a: real, r: real)
    requires 0.0 <= r && (r < a || a < -r)
    ensures r * r < a * a
  {
    if r < a { SquareStrictlyMonotone(r, a); } else { SquareStrictlyMonotone(r, -a); }
  }

  /** On an axis where the sphere's extent misses the box, every box point is farther than r from the centre. */
  lemma AxisMiss(c: int, r: int, lo: int, hi: int, x: real)
    requires r >= 0 && !OverlapsOnAxis(c, r, lo, hi)
    requires lo as real <= x <= hi as real
    ensures (r as real) * (r as real) < (x - c as real) * (x - c as real)
  {
    SquareBound(x - c as real, r as real);
  }

  lemma SquaresDominate(a: real, b: real, c: real)
    ensures a * a <= a * a + b * b + c * c
    ensures b * b <= a * a + b * b + c * c
    ensures c * c <= a * a + b * b + c * c
  {
    assert a * a >= 0.0 && b * b >= 0.0 && c * c >= 0.0;
  }

  /** A sphere accepted by a box is disjoint from it: no point of the box is in its ball. */
  lemma OutsideBoxMissesBall(b: Box, o: Object3D, p: Point)
    requires AssertObjectIsOutside(b, o).Pass?
    requires o.radius >= 0
    requires InBox(b, p)
    ensures !InBall(p, o)
  {
    var d := RSub(p, AsPoint(o.center));
    assert DistSq(p, o.center) == d.x * d.x + d.y * d.y + d.z * d.z;
    SquaresDominate(d.x, d.y, d.z);
    CastMul(o.radius, o.radius);
    if !OverlapsOnAxis(o.center.x, o.radius, b.minX, b.maxX) {
      AxisMiss(o.center.x, o.radius, b.minX, b.maxX, p.x);
    } else if !OverlapsOnAxis(o.center.y, o.radius, b.minY, b.maxY) {
      AxisMiss(o.center.y, o.radius, b.minY, b.maxY, p.y);
    } else {
      AxisMiss(o.center.z, o.radius, b.minZ, b.maxZ, p.z);
    }
  }

  /** An object accepted by the room's boundary lies, as a closed ball, inside every plane. */
  lemma InsideRoomKeepsBallInside(room: Room, o: Object3D, i: int, p: Point)
    requires AssertObjectIsInside(room, o).Pass?
    requires 0 <= i < |room.planes|
    requires InBall(p, o)
    ensures RealSignedDistance(room.planes[i], p) < 0.0
  {
    InnerSideKeepsBallInside(room.planes[i], o, p);
  }

  /** An object accepted by the collision check meets no furniture box. */
  lemma NoCollisionsKeepsBallOutOfBoxes(room: Room, o: Object3D, i: int, p: Point)
    requires AssertNoCollisions(room, o).Pass?
    requires o.radius >= 0
    requires 0 <= i < |room.boxes|
    requires InBox(room.boxes[i], p)
    ensures !InBall(p, o)
  {
    OutsideBoxMissesBall(room.boxes[i], o, p);
  }

  /** A plane from collinear points (zero normal) fails closed: it accepts nothing. */
  lemma DegeneratePlaneRejects(p0: Vector3, p1: Vector3, p2: Vector3, o: Object3D)
    requires Cross(Sub(p1, p0), Sub(p2, p0)) == Vector3(0, 0, 0)
    ensures AssertObjectIsOnInnerSide(FromPoints(p0, p1, p2), o) == Fail(NotOnInnerSide)
  {
  }

  /** Shrinking the radius keeps an accepted sphere accepted. */
  lemma InnerSideSmallerRadius(pl: Plane, o: Object3D, r: int)
    requires IsOnInnerSide(pl, o)
    requires 0 <= r <= o.radius || o.radius <= r <= 0
    ensures IsOnInnerSide(pl, Object3D(o.center, r))
  {
    DotSelfNonNegative(pl.normal);
    SmallerRadiusBound(SignedDistance(pl, o.center), o.radius, r, Dot(pl.normal, pl.normal));
  }

  lemma SmallerRadiusBound(s: int, big: int, small: int, nn: int)
    requires s * s > big * big * nn && nn >= 0
    requires 0 <= small <= big || big <= small <= 0
    ensures s * s > small * small * nn
  {
    assert small * small <= big * big by {
      if 0 <= small <= big { SquareMonotoneInt(small, big); } else { SquareMonotoneInt(-small, -big); }
    }
    MulMonotoneInt(nn, small * small, big * big);
  }

  lemma SquareMonotoneInt(a: int, b: int)
    requires 0 <= a <= b
    ensures a * a <= b * b
  {
    assert a * a <= a * b;
  }

  lemma MulMonotoneInt(k: int, a: int, b: int)
    requires 0 <= k && a <= b
    ensures a * k <= b * k
  {
  }
}
