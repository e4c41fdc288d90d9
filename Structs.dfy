/**
 * The geometric primitives of the hidden-object proof: a spherical object,
 * planes built from three points, axis-aligned boxes and the room that
 * aggregates them, each with the assertion it exposes.
 *
 * Every assertion is a total function returning an `Outcome`: `Pass`, or
 * `Fail` with the kind of the violated assertion; `Message` gives the text
 * the caller sees.
 */
module Structs {
  import opened Results
  import opened Zk3d

  datatype AssertionError = NotOnInnerSide | NotOutsideBox

  /** The text of the error thrown for each failed assertion. */
  function Message(e: AssertionError): string
  {
    match e
    case NotOnInnerSide => "Object must be on the inner side of the plane"
    case NotOutsideBox => "Object must be outside the box"
  }

  /** The hidden object: a bounding sphere (`Object3D.fromPointAndRadius`). */
  datatype Object3D = Object3D(center: Vector3, radius: int)

  /** A plane with normal n and offset d: the points p with n . p == d. */
  datatype Plane = Plane(normal: Vector3, offset: int)

  /** n . p - d: negative on the inner side, zero on the plane. */
  function SignedDistance(pl: Plane, p: Vector3): int
  {
    Dot(pl.normal, p) - pl.offset
  }

  /** `Plane.fromPoints`: normal (p1 - p0) x (p2 - p0), offset normal . p0. */
  function FromPoints(p0: Vector3, p1: Vector3, p2: Vector3): (pl: Plane)
    ensures SignedDistance(pl, p0) == 0
  {
    var n := Cross(Sub(p1, p0), Sub(p2, p0));
    Plane(n, Dot(n, p0))
  }

  /** The three defining points lie on the plane built from them. */
  lemma FromPointsContainsPoints(p0: Vector3, p1: Vector3, p2: Vector3)
    ensures SignedDistance(FromPoints(p0, p1, p2), p0) == 0
    ensures SignedDistance(FromPoints(p0, p1, p2), p1) == 0
    ensures SignedDistance(FromPoints(p0, p1, p2), p2) == 0
  {
    var n := Cross(Sub(p1, p0), Sub(p2, p0));
    CrossOrthogonal(Sub(p1, p0), Sub(p2, p0));
    DotSub(n, p1, p0);
    DotSub(n, p2, p0);
  }

  /**
   * The sphere lies strictly on the inner side: its centre is on the inner
   * side and further from the plane than its radius. With s the signed
   * distance (scaled by |n|), that is s < 0 and s^2 > r^2 |n|^2.
   */
  predicate IsOnInnerSide(pl: Plane, o: Object3D)
  {
    var s := SignedDistance(pl, o.center);
    s < 0 && s * s > o.radius * o.radius * Dot(pl.normal, pl.normal)
  }

  /** `Plane.assertObjectIsOnInnerSide`. */
  function AssertObjectIsOnInnerSide(pl: Plane, o: Object3D): (r: Outcome<AssertionError>)
    ensures r.Pass? ==> SignedDistance(pl, o.center) < 0
    ensures r.Fail? ==> r.error == NotOnInnerSide
    ensures SignedDistance(pl, o.center) >= 0 ==> r.Fail?
  {
    if IsOnInnerSide(pl, o) then Pass else Fail(NotOnInnerSide)
  }

  /** An axis-aligned box. */
  datatype Box = Box(minX: int, maxX: int, minY: int, maxY: int, minZ: int, maxZ: int)

  predicate WellFormed(b: Box)
  {
    b.minX <= b.maxX && b.minY <= b.maxY && b.minZ <= b.maxZ
  }

  /** The interval [c - r, c + r] meets [lo, hi]. */
  predicate OverlapsOnAxis(c: int, r: int, lo: int, hi: int)
  {
    !(c + r < lo || c - r > hi)
  }

  /** Separating-axis test: the sphere's extent misses the box on some axis. */
  predicate IsOutside(b: Box, o: Object3D)
  {
    !OverlapsOnAxis(o.center.x, o.radius, b.minX, b.maxX)
    || !OverlapsOnAxis(o.center.y, o.radius, b.minY, b.maxY)
    || !OverlapsOnAxis(o.center.z, o.radius, b.minZ, b.maxZ)
  }

  /** `Box.assertObjectIsOutside`. */
  function AssertObjectIsOutside(b: Box, o: Object3D): (r: Outcome<AssertionError>)
    ensures r.Fail? ==> r.error == NotOutsideBox
    ensures r.Fail? ==> OverlapsOnAxis(o.center.x, o.radius, b.minX, b.maxX)
    ensures r.Fail? ==> OverlapsOnAxis(o.center.y, o.radius, b.minY, b.maxY)
    ensures r.Fail? ==> OverlapsOnAxis(o.center.z, o.radius, b.minZ, b.maxZ)
  {
    if IsOutside(b, o) then Pass else Fail(NotOutsideBox)
  }

  /** The room: its boundary planes and its furniture boxes, in order. */
  datatype Room = Room(planes: seq<Plane>, boxes: seq<Box>)

  /** Every plane in turn, stopping at the first violation. */
  function AssertOnInnerSideOfAll(planes: seq<Plane>, o: Object3D): (r: Outcome<AssertionError>)
    ensures r.Pass? <==> forall i :: 0 <= i < |planes| ==> IsOnInnerSide(planes[i], o)
    ensures r.Fail? ==> r.error == NotOnInnerSide
    decreases |planes|
  {
    if planes == [] then Pass
    else
      match AssertObjectIsOnInnerSide(planes[0], o)
      case Fail(e) => Fail(e)
      case Pass => AssertOnInnerSideOfAll(planes[1..], o)
  }

  /** Every box in turn, stopping at the first collision. */
  function AssertOutsideOfAll(boxes: seq<Box>, o: Object3D): (r: Outcome<AssertionError>)
    ensures r.Pass? <==> forall i :: 0 <= i < |boxes| ==> IsOutside(boxes[i], o)
    ensures r.Fail? ==> r.error == NotOutsideBox
    decreases |boxes|
  {
    if boxes == [] then Pass
    else
      match AssertObjectIsOutside(boxes[0], o)
      case Fail(e) => Fail(e)
      case Pass => AssertOutsideOfAll(boxes[1..], o)
  }

  /** `Room.assertObjectIsInside`. */
  function AssertObjectIsInside(room: Room, o: Object3D): (r: Outcome<AssertionError>)
    ensures r.Pass? <==> forall i :: 0 <= i < |room.planes| ==> IsOnInnerSide(room.planes[i], o)
    ensures r.Fail? ==> r.error == NotOnInnerSide
  {
    AssertOnInnerSideOfAll(room.planes, o)
  }

  /** `Room.assertNoCollisions`. */
  function AssertNoCollisions(room: Room, o: Object3D): (r: Outcome<AssertionError>)
    ensures r.Pass? <==> forall i :: 0 <= i < |room.boxes| ==> IsOutside(room.boxes[i], o)
    ensures r.Fail? ==> r.error == NotOutsideBox
  {
    AssertOutsideOfAll(room.boxes, o)
  }

  // ---------------------------------------------------------------------
  // What the predicates mean, stated over the points of real space (in the
  // same fixed-point units as the integer vectors).

  datatype Point = Point(x: real, y: real, z: real)

  function AsPoint(v: Vector3): Point
  {
    Point(v.x as real, v.y as real, v.z as real)
  }

  function RDot(a: Point, b: Point): real
  {
    a.x * b.x + a.y * b.y + a.z * b.z
  }

  function RSub(a: Point, b: Point): Point
  {
    Point(a.x - b.x, a.y - b.y, a.z - b.z)
  }

  /** The squared distance from p to the centre c. */
  function DistSq(p: Point, c: Vector3): real
  {
    var d := RSub(p, AsPoint(c));
    RDot(d, d)
  }

  /** p belongs to the closed ball of the object. */
  predicate InBall(p: Point, o: Object3D)
  {
    DistSq(p, o.center) <= (o.radius * o.radius) as real
  }

  function RealSignedDistance(pl: Plane, p: Point): real
  {
    RDot(AsPoint(pl.normal), p) - pl.offset as real
  }
}
