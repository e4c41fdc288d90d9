/**
 * The fixtures and expectations of the geometric and proof-program tests,
 * each stated as a lemma about the model.
 */
module HotnColdTests {
  import opened Results
  import opened Zk3d
  import opened Structs
  import opened ZkProgram

  /** `new Vector3({x: Real64.from(x), y: Real64.from(y), z: Real64.from(z)})`. */
  function V(x: real, y: real, z: real): Vector3
  {
    Vector3(FromReal(x), FromReal(y), FromReal(z))
  }

  /** `Object3D.fromPointAndRadius(V(x, y, z), Real64.from(r))`. */
  function Sphere(x: real, y: real, z: real, r: real): Object3D
  {
    Object3D(V(x, y, z), FromReal(r))
  }

  /** `new Box({...})` with the same bounds on every axis. */
  function CubeBox(lo: real, hi: real): Box
  {
    Box(FromReal(lo), FromReal(hi), FromReal(lo), FromReal(hi), FromReal(lo), FromReal(hi))
  }

  /** The plane through (0,0,0), (0,1,0), (1,0,0): the floor z = 0 of the unit cube. */
  function Floor(): Plane
  {
    FromPoints(V(0.0, 0.0, 0.0), V(0.0, 1.0, 0.0), V(1.0, 0.0, 0.0))
  }

  /** The wall y = 0. */
  function FrontWall(): Plane
  {
    FromPoints(V(0.0, 0.0, 0.0), V(1.0, 0.0, 0.0), V(0.0, 0.0, 1.0))
  }

  /** The wall x = 0. */
  function LeftWall(): Plane
  {
    FromPoints(V(0.0, 0.0, 0.0), V(0.0, 0.0, 1.0), V(0.0, 1.0, 0.0))
  }

  /** The wall x = 1. */
  function RightWall(): Plane
  {
    FromPoints(V(1.0, 0.0, 0.0), V(1.0, 1.0, 0.0), V(1.0, 0.0, 1.0))
  }

  /** The wall y = 1. */
  function BackWall(): Plane
  {
    FromPoints(V(0.0, 1.0, 0.0), V(0.0, 1.0, 1.0), V(1.0, 1.0, 0.0))
  }

  /** The ceiling z = 1. */
  function Ceiling(): Plane
  {
    FromPoints(V(0.0, 0.0, 1.0), V(1.0, 0.0, 1.0), V(0.0, 1.0, 1.0))
  }

  /** The six faces of the unit cube, in the order of the fixtures. */
  function CubeFaces(): seq<Plane>
  {
    [Floor(), FrontWall(), LeftWall(), RightWall(), BackWall(), Ceiling()]
  }

  /** The unit-cube room with furniture boxes in two opposite corners. */
  function CubicRoom(): Room
  {
    Room(CubeFaces(), [CubeBox(0.0, 0.1), CubeBox(0.9, 1.0)])
  }

  /** The sphere at the centre of the room, in fixed point. */
  lemma CentreSphere(o: Object3D)
    requires o == Sphere(0.5, 0.5, 0.5, 0.02)
    ensures o == Object3D(Vector3(500000, 500000, 500000), 20000)
  {
    assert V(0.5, 0.5, 0.5) == Vector3(500000, 500000, 500000);
    assert FromReal(0.02) == 20000;
  }

  /** The sphere below the floor, in fixed point. */
  lemma SphereBelowFloor(o: Object3D)
    requires o == Sphere(0.5, 0.5, -0.5, 0.02)
    ensures o == Object3D(Vector3(500000, 500000, -500000), 20000)
  {
    assert V(0.5, 0.5, -0.5) == Vector3(500000, 500000, -500000);
    assert FromReal(0.02) == 20000;
  }

  /** The sphere centred on the floor, in fixed point. */
  lemma SphereOnFloor(o: Object3D)
    requires o == Sphere(0.5, 0.5, 0.0, 0.02)
    ensures o == Object3D(Vector3(500000, 500000, 0), 20000)
  {
    assert V(0.5, 0.5, 0.0) == Vector3(500000, 500000, 0);
    assert FromReal(0.02) == 20000;
  }

  /** The sphere beside the first box, in fixed point. */
  lemma SphereNearBox(o: Object3D)
    requires o == Sphere(0.2, 0.2, 0.2, 0.02)
    ensures o == Object3D(Vector3(200000, 200000, 200000), 20000)
  {
    assert V(0.2, 0.2, 0.2) == Vector3(200000, 200000, 200000);
    assert FromReal(0.02) == 20000;
  }

  /** The sphere inside the first box, in fixed point. */
  lemma SphereInFirstBox(o: Object3D)
    requires o == Sphere(0.05, 0.05, 0.05, 0.02)
    ensures o == Object3D(Vector3(50000, 50000, 50000), 20000)
  {
    assert V(0.05, 0.05, 0.05) == Vector3(50000, 50000, 50000);
    assert FromReal(0.02) == 20000;
  }

  /** The sphere on the corner of the first box, in fixed point. */
  lemma SphereOnFirstBoxCorner(o: Object3D)
    requires o == Sphere(0.1, 0.1, 0.1, 0.02)
    ensures o == Object3D(Vector3(100000, 100000, 100000), 20000)
  {
    assert V(0.1, 0.1, 0.1) == Vector3(100000, 100000, 100000);
    assert FromReal(0.02) == 20000;
  }

  /** The sphere inside the second box, in fixed point. */
  lemma SphereInSecondBox(o: Object3D)
    requires o == Sphere(0.95, 0.95, 0.95, 0.02)
    ensures o == Object3D(Vector3(950000, 950000, 950000), 20000)
  {
    assert V(0.95, 0.95, 0.95) == Vector3(950000, 950000, 950000);
    assert FromReal(0.02) == 20000;
  }

  /** The corners of the unit cube that the fixtures use. */
  lemma CubeCorners()
    ensures V(0.0, 0.0, 0.0) == Vector3(0, 0, 0)
    ensures V(1.0, 0.0, 0.0) == Vector3(SCALE, 0, 0)
    ensures V(0.0, 1.0, 0.0) == Vector3(0, SCALE, 0)
    ensures V(0.0, 0.0, 1.0) == Vector3(0, 0, SCALE)
    ensures V(1.0, 1.0, 0.0) == Vector3(SCALE, SCALE, 0)
    ensures V(1.0, 0.0, 1.0) == Vector3(SCALE, 0, SCALE)
    ensures V(0.0, 1.0, 1.0) == Vector3(0, SCALE, SCALE)
  {
  }

  /** The planes through the corners of a cube of side s: each normal points out of the cube. */
  lemma FacesOfCube(s: int)
    ensures FromPoints(Vector3(0, 0, 0), Vector3(0, s, 0), Vector3(s, 0, 0)) == Plane(Vector3(0, 0, -s * s), 0)
    ensures FromPoints(Vector3(0, 0, 0), Vector3(s, 0, 0), Vector3(0, 0, s)) == Plane(Vector3(0, -s * s, 0), 0)
    ensures FromPoints(Vector3(0, 0, 0), Vector3(0, 0, s), Vector3(0, s, 0)) == Plane(Vector3(-s * s, 0, 0), 0)
    ensures FromPoints(Vector3(s, 0, 0), Vector3(s, s, 0), Vector3(s, 0, s)) == Plane(Vector3(s * s, 0, 0), s * s * s)
    ensures FromPoints(Vector3(0, s, 0), Vector3(0, s, s), Vector3(s, s, 0)) == Plane(Vector3(0, s * s, 0), s * s * s)
    ensures FromPoints(Vector3(0, 0, s), Vector3(s, 0, s), Vector3(0, s, s)) == Plane(Vector3(0, 0, s * s), s * s * s)
  {
    assert Cross(Vector3(0, s, 0), Vector3(s, 0, 0)) == Vector3(0, 0, -s * s);
    assert Cross(Vector3(s, 0, 0), Vector3(0, 0, s)) == Vector3(0, -s * s, 0);
    assert Cross(Vector3(0, 0, s), Vector3(0, s, 0)) == Vector3(-s * s, 0, 0);
    assert Cross(Vector3(0, s, 0), Vector3(0, 0, s)) == Vector3(s * s, 0, 0);
    assert Cross(Vector3(0, 0, s), Vector3(s, 0, 0)) == Vector3(0, s * s, 0);
    assert Cross(Vector3(s, 0, 0), Vector3(0, s, 0)) == Vector3(0, 0, s * s);
  }

  /** The normal of the floor points out of the room. */
  lemma FloorPointsOutward()
    ensures Floor() == Plane(Vector3(0, 0, -SCALE * SCALE), 0)
  {
    CubeCorners();
    FacesOfCube(SCALE);
  }

  /** The normal of the front wall points out of the room. */
  lemma FrontWallPointsOutward()
    ensures FrontWall() == Plane(Vector3(0, -SCALE * SCALE, 0), 0)
  {
    CubeCorners();
    FacesOfCube(SCALE);
  }

  /** The normal of the left wall points out of the room. */
  lemma LeftWallPointsOutward()
    ensures LeftWall() == Plane(Vector3(-SCALE * SCALE, 0, 0), 0)
  {
    CubeCorners();
    FacesOfCube(SCALE);
  }

  /** The normal of the right wall points out of the room. */
  lemma RightWallPointsOutward()
    ensures RightWall() == Plane(Vector3(SCALE * SCALE, 0, 0), SCALE * SCALE * SCALE)
  {
    CubeCorners();
    FacesOfCube(SCALE);
  }

  /** The normal of the back wall points out of the room. */
  lemma BackWallPointsOutward()
    ensures BackWall() == Plane(Vector3(0, SCALE * SCALE, 0), SCALE * SCALE * SCALE)
  {
    CubeCorners();
    FacesOfCube(SCALE);
  }

  /** The normal of the ceiling points out of the room. */
  lemma CeilingPointsOutward()
    ensures Ceiling() == Plane(Vector3(0, 0, SCALE * SCALE), SCALE * SCALE * SCALE)
  {
    CubeCorners();
    FacesOfCube(SCALE);
  }

  /** The messages the tests expect from the failed assertions. */
  lemma ErrorMessages()
    ensures Message(NotOnInnerSide) == "Object must be on the inner side of the plane"
    ensures Message(NotOutsideBox) == "Object must be outside the box"
    ensures RunMessage(ObjectMismatch) == Some("object must match the previously commited object")
  {
  }

  // Plane validation.

  /** The floor check on a sphere of radius 0.02 at height z, on the fixed-point values. */
  lemma FloorCheckAt(pl: Plane, o: Object3D, z: int)
    requires pl == Plane(Vector3(0, 0, -SCALE * SCALE), 0)
    requires o.center.z == z && o.radius == 20000
    ensures AssertObjectIsOnInnerSide(pl, o) == (if z > 20000 then Pass else Fail(NotOnInnerSide))
  {
    var s := SignedDistance(pl, o.center);
    assert s == -SCALE * SCALE * z;
    assert Dot(pl.normal, pl.normal) == SCALE * SCALE * SCALE * SCALE;
  }

  /** The floor check on a sphere of radius 0.02 at height z. */
  lemma FloorCheck(pl: Plane, o: Object3D, z: int)
    requires pl == Floor()
    requires o.center.z == z && o.radius == 20000
    ensures AssertObjectIsOnInnerSide(pl, o) == (if z > 20000 then Pass else Fail(NotOnInnerSide))
  {
    FloorPointsOutward();
    FloorCheckAt(pl, o, z);
  }

  lemma ObjectOnInnerSideAccepted(pl: Plane, o: Object3D)
    requires pl == Floor() && o == Sphere(0.5, 0.5, 0.5, 0.02)
    ensures AssertObjectIsOnInnerSide(pl, o) == Pass
  {
    CentreSphere(o);
    FloorCheck(pl, o, 500000);
  }

  lemma ObjectOnOuterSideRejected(pl: Plane, o: Object3D)
    requires pl == Floor() && o == Sphere(0.5, 0.5, -0.5, 0.02)
    ensures AssertObjectIsOnInnerSide(pl, o) == Fail(NotOnInnerSide)
  {
    SphereBelowFloor(o);
    FloorCheck(pl, o, -500000);
  }

  lemma ObjectPartiallyOnInnerSideRejected(pl: Plane, o: Object3D)
    requires pl == Floor() && o == Sphere(0.5, 0.5, 0.0, 0.02)
    ensures AssertObjectIsOnInnerSide(pl, o) == Fail(NotOnInnerSide)
  {
    SphereOnFloor(o);
    FloorCheck(pl, o, 0);
  }

  // Box validation.

  lemma ObjectOutsideBoxAccepted(b: Box, o: Object3D)
    requires b == CubeBox(0.0, 0.1) && o == Sphere(0.2, 0.2, 0.2, 0.02)
    ensures AssertObjectIsOutside(b, o) == Pass
  {
    SphereNearBox(o);
    BoxBounds();
  }

  lemma ObjectInsideBoxRejected(b: Box, o: Object3D)
    requires b == CubeBox(0.0, 0.1) && o == Sphere(0.05, 0.05, 0.05, 0.02)
    ensures AssertObjectIsOutside(b, o) == Fail(NotOutsideBox)
  {
    SphereInFirstBox(o);
    BoxBounds();
  }

  lemma ObjectPartiallyInsideBoxRejected(b: Box, o: Object3D)
    requires b == CubeBox(0.0, 0.1) && o == Sphere(0.1, 0.1, 0.1, 0.02)
    ensures AssertObjectIsOutside(b, o) == Fail(NotOutsideBox)
  {
    SphereOnFirstBoxCorner(o);
    BoxBounds();
  }

  // Room validation.

  lemma BoxBounds()
    ensures FromReal(0.0) == 0 && FromReal(0.1) == 100000
    ensures FromReal(0.9) == 900000 && FromReal(1.0) == SCALE
  {
  }

  /** The room, as the fixed-point planes and boxes it evaluates to. */
  lemma RoomFixture(room: Room)
    requires room == CubicRoom()
    ensures room.planes == CubePlanes() && room.boxes == CubeBoxes()
  {
    FloorPointsOutward();
    FrontWallPointsOutward();
    LeftWallPointsOutward();
    RightWallPointsOutward();
    BackWallPointsOutward();
    CeilingPointsOutward();
    BoxBounds();
  }

  /** The fixed-point faces of the unit cube. */
  function CubePlanes(): seq<Plane>
  {
    [ Plane(Vector3(0, 0, -SCALE * SCALE), 0),
      Plane(Vector3(0, -SCALE * SCALE, 0), 0),
      Plane(Vector3(-SCALE * SCALE, 0, 0), 0),
      Plane(Vector3(SCALE * SCALE, 0, 0), SCALE * SCALE * SCALE),
      Plane(Vector3(0, SCALE * SCALE, 0), SCALE * SCALE * SCALE),
      Plane(Vector3(0, 0, SCALE * SCALE), SCALE * SCALE * SCALE) ]
  }

  /** The fixed-point furniture boxes. */
  function CubeBoxes(): seq<Box>
  {
    [Box(0, 100000, 0, 100000, 0, 100000), Box(900000, SCALE, 900000, SCALE, 900000, SCALE)]
  }

  /** The centre of the unit cube is far enough from each of its faces. */
  lemma CentreInsideCube(planes: seq<Plane>, o: Object3D)
    requires planes == CubePlanes()
    requires o == Object3D(Vector3(500000, 500000, 500000), 20000)
    ensures AssertOnInnerSideOfAll(planes, o) == Pass
  {
    assert IsOnInnerSide(planes[0], o);
    assert IsOnInnerSide(planes[1], o);
    assert IsOnInnerSide(planes[2], o);
    assert IsOnInnerSide(planes[3], o);
    assert IsOnInnerSide(planes[4], o);
    assert IsOnInnerSide(planes[5], o);
  }

  /** The centre of the unit cube misses both furniture boxes. */
  lemma CentreMissesCubeBoxes(boxes: seq<Box>, o: Object3D)
    requires boxes == CubeBoxes()
    requires o == Object3D(Vector3(500000, 500000, 500000), 20000)
    ensures AssertOutsideOfAll(boxes, o) == Pass
  {
    assert IsOutside(boxes[0], o) && IsOutside(boxes[1], o);
  }

  lemma CentredObjectInsideRoom(room: Room, o: Object3D)
    requires room == CubicRoom() && o == Sphere(0.5, 0.5, 0.5, 0.02)
    ensures AssertObjectIsInside(room, o) == Pass
  {
    CentreSphere(o);
    RoomFixture(room);
    CentreInsideCube(room.planes, o);
  }

  lemma CentredObjectCollidesWithNothing(room: Room, o: Object3D)
    requires room == CubicRoom() && o == Sphere(0.5, 0.5, 0.5, 0.02)
    ensures AssertNoCollisions(room, o) == Pass
  {
    CentreSphere(o);
    RoomFixture(room);
    CentreMissesCubeBoxes(room.boxes, o);
  }

  /** A sphere below the floor fails on the first face. */
  lemma BelowFloorOfCube(planes: seq<Plane>, o: Object3D)
    requires planes == CubePlanes()
    requires o == Object3D(Vector3(500000, 500000, -500000), 20000)
    ensures AssertOnInnerSideOfAll(planes, o) == Fail(NotOnInnerSide)
  {
    FloorCheckAt(planes[0], o, -500000);
  }

  lemma ObjectOutsideRoomRejected(room: Room, o: Object3D)
    requires room == CubicRoom() && o == Sphere(0.5, 0.5, -0.5, 0.02)
    ensures AssertObjectIsInside(room, o) == Fail(NotOnInnerSide)
  {
    SphereBelowFloor(o);
    RoomFixture(room);
    BelowFloorOfCube(room.planes, o);
  }

  /** A sphere of radius 0.02 centred at (c, c, c) overlaps the furniture box with index k. */
  lemma CollidesWithCubeBox(boxes: seq<Box>, o: Object3D, k: int, c: int)
    requires boxes == CubeBoxes() && 0 <= k < 2
    requires o == Object3D(Vector3(c, c, c), 20000)
    requires k == 0 ==> -20000 <= c <= 120000
    requires k == 1 ==> 880000 <= c <= 1020000
    ensures AssertOutsideOfAll(boxes, o) == Fail(NotOutsideBox)
  {
    assert !IsOutside(boxes[k], o);
  }

  lemma CollidesWithFirstCubeBox(boxes: seq<Box>, o: Object3D)
    requires boxes == CubeBoxes() && o == Object3D(Vector3(50000, 50000, 50000), 20000)
    ensures AssertOutsideOfAll(boxes, o) == Fail(NotOutsideBox)
  {
    CollidesWithCubeBox(boxes, o, 0, 50000);
  }

  lemma CollidesWithSecondCubeBox(boxes: seq<Box>, o: Object3D)
    requires boxes == CubeBoxes() && o == Object3D(Vector3(950000, 950000, 950000), 20000)
    ensures AssertOutsideOfAll(boxes, o) == Fail(NotOutsideBox)
  {
    CollidesWithCubeBox(boxes, o, 1, 950000);
  }

  lemma ObjectCollidingWithFirstBoxRejected(room: Room, o: Object3D)
    requires room == CubicRoom() && o == Sphere(0.05, 0.05, 0.05, 0.02)
    ensures AssertNoCollisions(room, o) == Fail(NotOutsideBox)
  {
    SphereInFirstBox(o);
    RoomFixture(room);
    CollidesWithFirstCubeBox(room.boxes, o);
  }

  lemma ObjectCollidingWithSecondBoxRejected(room: Room, o: Object3D)
    requires room == CubicRoom() && o == Sphere(0.95, 0.95, 0.95, 0.02)
    ensures AssertNoCollisions(room, o) == Fail(NotOutsideBox)
  {
    SphereInSecondBox(o);
    RoomFixture(room);
    CollidesWithSecondCubeBox(room.boxes, o);
  }

  // The recursive proof program.

  /** The object of the base step: the centre of the room, with radius 0. */
  function DummyObject(): Object3D
  {
    Object3D(V(0.5, 0.5, 0.5), FromReal(0.0))
  }

  /** The public input of the base step: the floor and the dummy object's commitment. */
  function DummyPublicInput(hash: Hasher): PlaneAndObjectCommitment
  {
    PlaneAndObjectCommitment(Floor(), GetHash(hash, DummyObject()))
  }

  lemma DummyObjectFixture(o: Object3D)
    requires o == DummyObject()
    ensures o == Object3D(Vector3(500000, 500000, 500000), 0)
  {
    assert V(0.5, 0.5, 0.5) == Vector3(500000, 500000, 500000);
    assert FromReal(0.0) == 0;
  }

  /** The base step on the fixed-point values: a point above the floor passes. */
  lemma BaseStepAt(hash: Hasher, pub: PlaneAndObjectCommitment, o: Object3D)
    requires pub.plane == Plane(Vector3(0, 0, -SCALE * SCALE), 0)
    requires o == Object3D(Vector3(500000, 500000, 500000), 0)
    ensures Run(hash, pub, o, DummyProof(pub), false) == Ok(Proof(pub, true))
  {
    assert IsOnInnerSide(pub.plane, o);
  }

  /**
   * The base step of the setup: the dummy object against the floor, not
   * recursive, over a dummy prior proof. It succeeds, whatever the hash.
   */
  lemma BaseStepSucceeds(hash: Hasher, pub: PlaneAndObjectCommitment, o: Object3D)
    requires pub == DummyPublicInput(hash) && o == DummyObject()
    ensures Run(hash, pub, o, DummyProof(pub), false) == Ok(Proof(pub, true))
  {
    DummyObjectFixture(o);
    FloorPointsOutward();
    BaseStepAt(hash, pub, o);
  }

  /** The sphere of the mismatch test, in fixed point. */
  lemma DifferentSphere(o: Object3D)
    requires o == Sphere(0.75, 0.75, 0.75, 0.02)
    ensures o == Object3D(Vector3(750000, 750000, 750000), 20000)
  {
    assert V(0.75, 0.75, 0.75) == Vector3(750000, 750000, 750000);
    assert FromReal(0.02) == 20000;
  }

  /** The object (0.75, 0.75, 0.75) of the mismatch test would itself pass the floor. */
  lemma DifferentObjectPassesFloor(pl: Plane, different: Object3D)
    requires pl == Floor() && different == Sphere(0.75, 0.75, 0.75, 0.02)
    ensures AssertObjectIsOnInnerSide(pl, different) == Pass
  {
    DifferentSphere(different);
    FloorCheck(pl, different, 750000);
  }

  /**
   * A recursive step whose witness hashes differently from the committed
   * object is rejected with the commitment error, whatever the prior proof.
   */
  lemma DifferentObjectRejected(hash: Hasher, pub: PlaneAndObjectCommitment, o: Object3D, different: Object3D, prior: Proof)
    requires o == Sphere(0.5, 0.5, 0.5, 0.02) && different == Sphere(0.75, 0.75, 0.75, 0.02)
    requires pub == PlaneAndObjectCommitment(Floor(), GetHash(hash, o))
    requires GetHash(hash, different) != GetHash(hash, o)
    ensures Run(hash, pub, different, prior, true) == Err(ObjectMismatch)
  {
  }

  lemma CubeFacesFixture(planes: seq<Plane>)
    requires planes == CubeFaces()
    ensures planes == CubePlanes()
  {
    FloorPointsOutward();
    FrontWallPointsOutward();
    LeftWallPointsOutward();
    RightWallPointsOutward();
    BackWallPointsOutward();
    CeilingPointsOutward();
  }

  /** The proving loop over the fixed-point faces, with the sphere at the centre. */
  lemma ProvingLoopOverCube(hash: Hasher, planes: seq<Plane>, o: Object3D, base: Proof)
    requires planes == CubePlanes() && o == Object3D(Vector3(500000, 500000, 500000), 20000)
    requires base.verifies
    ensures ValidateAllPlanes(hash, planes, o, base)
         == Ok(Proof(PlaneAndObjectCommitment(planes[5], GetHash(hash, o)), true))
  {
    CentreInsideCube(planes, o);
    ValidateAllPlanesIffInside(hash, planes, o, base);
  }

  /**
   * The proving test: from a verifying base proof (the one of
   * `BaseStepSucceeds`), one recursive step per
   * face of the room with the centred object yields a proof at every step;
   * the last is over the ceiling and the object's commitment.
   */
  lemma ProvingLoopAcceptsCentredObject(hash: Hasher, planes: seq<Plane>, ceiling: Plane, o: Object3D, base: Proof)
    requires planes == CubeFaces() && ceiling == Ceiling() && o == Sphere(0.5, 0.5, 0.5, 0.02)
    requires base.verifies
    ensures ValidateAllPlanes(hash, planes, o, base)
         == Ok(Proof(PlaneAndObjectCommitment(ceiling, GetHash(hash, o)), true))
  {
    CentreSphere(o);
    CubeFacesFixture(planes);
    CeilingPointsOutward();
    ProvingLoopOverCube(hash, planes, o, base);
  }
}
