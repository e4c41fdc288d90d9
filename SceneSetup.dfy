/**
 * The scene set-up script: the hidden object is scaled into fixed point,
 * every furniture box is converted (its vertices scaled and regrouped into
 * points, its transformation matrix scaled and made affine, the points
 * moved by that matrix) and the committed object is then checked against
 * each converted box.
 *
 * The matrix application and the box constructor of the proving library
 * are parameters; float32 storage is not modelled (values are exact reals).
 */
module SceneSetup {
  import opened Zk3d
  import opened Structs
  import opened ZkProgram

  // ---------------------------------------------------------------------
  // The hidden object.

  /** The real-world hidden object of the scene: centre coordinates and radius, in metres. */
  datatype RealWorldObject = RealWorldObject(x: real, y: real, z: real, radius: real)

  /** The centre carries scale SCALE^2 and the radius scale SCALE, each rounded by `Math.round`. */
  function HiddenObject(h: RealWorldObject): (o: Object3D)
    ensures h.x * (SCALE * SCALE) as real - 0.5 < o.center.x as real <= h.x * (SCALE * SCALE) as real + 0.5
    ensures h.y * (SCALE * SCALE) as real - 0.5 < o.center.y as real <= h.y * (SCALE * SCALE) as real + 0.5
    ensures h.z * (SCALE * SCALE) as real - 0.5 < o.center.z as real <= h.z * (SCALE * SCALE) as real + 0.5
    ensures h.radius * SCALE as real - 0.5 < o.radius as real <= h.radius * SCALE as real + 0.5
  {
    var s2 := (SCALE * SCALE) as real;
    Object3D(Vector3(Round(h.x * s2), Round(h.y * s2), Round(h.z * s2)), FromReal(h.radius))
  }

  /** An integer is its own rounding. */
  lemma RoundInt(k: int)
    ensures Round(k as real) == k
  {
  }

  /**
   * A hidden object given to the micrometre has centre coordinates that
   * are exactly its micrometres times SCALE, and a radius that is exactly
   * its micrometres.
   */
  lemma HiddenObjectScales(kx: int, ky: int, kz: int, kr: int)
    ensures var s := SCALE as real;
            HiddenObject(RealWorldObject(kx as real / s, ky as real / s, kz as real / s, kr as real / s))
            == Object3D(Vector3(kx * SCALE, ky * SCALE, kz * SCALE), kr)
  {
    var s := SCALE as real;
    var s2 := (SCALE * SCALE) as real;
    assert s2 == s * s;
    assert kx as real / s * s2 == (kx * SCALE) as real;
    assert ky as real / s * s2 == (ky * SCALE) as real;
    assert kz as real / s * s2 == (kz * SCALE) as real;
    RoundInt(kx * SCALE);
    RoundInt(ky * SCALE);
    RoundInt(kz * SCALE);
    FromRealExact(kr);
  }

  // ---------------------------------------------------------------------
  // Converting one box.

  /** A furniture box of the scene: its flat vertex coordinates and its 4x4 matrix, as reals. */
  datatype RawBox = RawBox(vertices: seq<real>, matrix: seq<real>)

  /** A box the script can convert: whole points, and a 4x4 matrix. */
  predicate Convertible(b: RawBox)
  {
    |b.vertices| % 3 == 0 && |b.matrix| == 16
  }

  /** Every value scaled by `Math.round(v * SCALE)`, in order. */
  function ScaleAll(xs: seq<real>): (r: seq<int>)
    ensures |r| == |xs|
  {
    seq(|xs|, i requires 0 <= i < |xs| => FromReal(xs[i]))
  }

  /** The consecutive triples of a flat coordinate array: point k is (v[3k], v[3k+1], v[3k+2]). */
  function Triples(v: seq<int>): (r: seq<Vector3>)
    ensures |r| == |v| / 3
  {
    seq(|v| / 3, k requires 0 <= k < |v| / 3 => Vector3(v[3 * k], v[3 * k + 1], v[3 * k + 2]))
  }

  /** The coordinates of a sequence of points, laid out flat in order. */
  function Flatten(ps: seq<Vector3>): (r: seq<int>)
    ensures |r| == 3 * |ps|
  {
    if ps == [] then [] else [ps[0].x, ps[0].y, ps[0].z] + Flatten(ps[1..])
  }

  lemma TriplesCons(v: seq<int>)
    requires |v| >= 3
    ensures Triples(v) == [Vector3(v[0], v[1], v[2])] + Triples(v[3..])
  {
    var t := Triples(v[3..]);
    assert forall k :: 1 <= k < |v| / 3 ==> Triples(v)[k] == t[k - 1];
  }

  /** Flattening the regrouped points gives back the flat array. */
  lemma {:induction false} FlattenTriples(v: seq<int>)
    requires |v| % 3 == 0
    ensures Flatten(Triples(v)) == v
    decreases |v|
  {
    if |v| > 0 {
      TriplesCons(v);
      FlattenTriples(v[3..]);
      assert Triples(v)[1..] == Triples(v[3..]);
      assert v == [v[0], v[1], v[2]] + v[3..];
    }
  }

  /** Regrouping the flattened points gives back the points. */
  lemma {:induction false} TriplesFlatten(ps: seq<Vector3>)
    ensures Triples(Flatten(ps)) == ps
    decreases |ps|
  {
    if ps != [] {
      var v := Flatten(ps);
      TriplesCons(v);
      assert v[3..] == Flatten(ps[1..]);
      TriplesFlatten(ps[1..]);
    }
  }

  /** A box's 24 coordinates give its 8 corners. */
  lemma EightCorners(v: seq<int>)
    requires |v| == 24
    ensures |Triples(v)| == 8
    ensures Triples(v)[7] == Vector3(v[21], v[22], v[23])
  {
  }

  /** The `for (i = 0; i < length; i += 3)` loop pushing one point per triple. */
  method GroupVertices(v: seq<int>) returns (points: seq<Vector3>)
    requires |v| % 3 == 0
    ensures points == Triples(v)
  {
    points := [];
    var i := 0;
    while i < |v|
      invariant 0 <= i <= |v| && i % 3 == 0
      invariant |points| == i / 3
      invariant forall k :: 0 <= k < |points| ==> points[k] == Vector3(v[3 * k], v[3 * k + 1], v[3 * k + 2])
    {
      points := points + [Vector3(v[i], v[i + 1], v[i + 2])];
      i := i + 3;
    }
  }

  /** The matrix elements, scaled, with element 15 set to 1 to keep the matrix affine. */
  function AffineElements(matrix: seq<real>): seq<int>
    requires |matrix| == 16
  {
    ScaleAll(matrix)[15 := 1]
  }

  /** `matrixElements[15] = 1`, in place. */
  method MakeAffine(m: array<int>)
    requires m.Length == 16
    modifies m
    ensures m[..] == old(m[..])[15 := 1]
  {
    m[15] := 1;
  }

  /** `b.matrix.map(x => Math.round(x * SCALE))` followed by the affine patch. */
  method MatrixElements(matrix: seq<real>) returns (elements: array<int>)
    requires |matrix| == 16
    ensures fresh(elements)
    ensures elements[..] == AffineElements(matrix)
  {
    elements := new int[16];
    for i := 0 to 16
      invariant forall j :: 0 <= j < i ==> elements[j] == FromReal(matrix[j])
    {
      elements[i] := FromReal(matrix[i]);
    }
    assert elements[..] == ScaleAll(matrix);
    MakeAffine(elements);
  }

  /** Every point moved by the same matrix (`vertexPoints.map(p => p.applyATM(m))`). */
  function TransformAll(points: seq<Vector3>, applyATM: (Vector3, seq<int>) -> Vector3, m: seq<int>): (r: seq<Vector3>)
  {
    seq(|points|, i requires 0 <= i < |points| => applyATM(points[i], m))
  }

  /** The transformation preserves length and order: it distributes over concatenation. */
  lemma TransformAllAppend(a: seq<Vector3>, b: seq<Vector3>, applyATM: (Vector3, seq<int>) -> Vector3, m: seq<int>)
    ensures TransformAll(a + b, applyATM, m) == TransformAll(a, applyATM, m) + TransformAll(b, applyATM, m)
  {
    var l := TransformAll(a + b, applyATM, m);
    var r := TransformAll(a, applyATM, m) + TransformAll(b, applyATM, m);
    assert |l| == |r|;
    forall i | 0 <= i < |l|
      ensures l[i] == r[i]
    {
      if i < |a| {
        assert (a + b)[i] == a[i];
      } else {
        assert (a + b)[i] == b[i - |a|];
      }
    }
  }

  /** Point i of the result is point i of the input, moved by the matrix. */
  lemma TransformAllAt(points: seq<Vector3>, applyATM: (Vector3, seq<int>) -> Vector3, m: seq<int>, i: int)
    requires 0 <= i < |points|
    ensures |TransformAll(points, applyATM, m)| == |points|
    ensures TransformAll(points, applyATM, m)[i] == applyATM(points[i], m)
  {
  }

  /** The converted box, as a function of the scene box. */
  function BoxOf<B>(b: RawBox, applyATM: (Vector3, seq<int>) -> Vector3, makeBox: (seq<Vector3>, seq<int>) -> B): B
    requires Convertible(b)
  {
    var m := AffineElements(b.matrix);
    makeBox(TransformAll(Triples(ScaleAll(b.vertices)), applyATM, m), m)
  }

  /** The body of the `boxes.forEach` callback. */
  method ConvertBox<B>(b: RawBox, applyATM: (Vector3, seq<int>) -> Vector3, makeBox: (seq<Vector3>, seq<int>) -> B)
    returns (box: B)
    requires Convertible(b)
    ensures box == BoxOf(b, applyATM, makeBox)
  {
    var scaled := ScaleAll(b.vertices);
    var vertexPoints := GroupVertices(scaled);
    var elements := MatrixElements(b.matrix);
    var m := elements[..];
    var moved := TransformAll(vertexPoints, applyATM, m);
    box := makeBox(moved, m);
  }

  /** `boxes.forEach(b => o1Boxes.push(convert(b)))`: one box per input box, in input order. */
  method BuildBoxes<B>(boxes: seq<RawBox>, applyATM: (Vector3, seq<int>) -> Vector3,
                       makeBox: (seq<Vector3>, seq<int>) -> B)
    returns (o1Boxes: seq<B>)
    requires forall i :: 0 <= i < |boxes| ==> Convertible(boxes[i])
    ensures |o1Boxes| == |boxes|
    ensures forall i :: 0 <= i < |boxes| ==> o1Boxes[i] == BoxOf(boxes[i], applyATM, makeBox)
  {
    o1Boxes := [];
    for i := 0 to |boxes|
      invariant |o1Boxes| == i
      invariant forall j :: 0 <= j < i ==> o1Boxes[j] == BoxOf(boxes[j], applyATM, makeBox)
    {
      var box := ConvertBox(boxes[i], applyATM, makeBox);
      o1Boxes := o1Boxes + [box];
    }
  }

  // ---------------------------------------------------------------------
  // The transactions.

  /** The contract calls the script makes, in order. */
  datatype Action<B> = CommitObject(commitment: Commitment) | ValidateOutsideBox(box: B, o: Object3D)

  /**
   * The deploy transaction commits the object's hash, computed once; the
   * second transaction then validates the object against every box in turn.
   */
  method RunScript<B>(hash: Hasher, o1Boxes: seq<B>, hidden: Object3D) returns (actions: seq<Action<B>>)
    ensures |actions| == 1 + |o1Boxes|
    ensures actions[0] == CommitObject(GetHash(hash, hidden))
    ensures forall i :: 0 <= i < |o1Boxes| ==> actions[i + 1] == ValidateOutsideBox(o1Boxes[i], hidden)
  {
    var objectHash := GetHash(hash, hidden);
    actions := [CommitObject(objectHash)];
    for i := 0 to |o1Boxes|
      invariant |actions| == 1 + i
      invariant actions[0] == CommitObject(objectHash)
      invariant forall j :: 0 <= j < i ==> actions[j + 1] == ValidateOutsideBox(o1Boxes[j], hidden)
    {
      actions := actions + [ValidateOutsideBox(o1Boxes[i], hidden)];
    }
  }

  /** The commitment is the only commit of the script, and it precedes every validation. */
  lemma CommitOnceBeforeValidation<B>(hash: Hasher, o1Boxes: seq<B>, hidden: Object3D, actions: seq<Action<B>>)
    requires |actions| == 1 + |o1Boxes|
    requires actions[0] == CommitObject(GetHash(hash, hidden))
    requires forall i :: 0 <= i < |o1Boxes| ==> actions[i + 1] == ValidateOutsideBox(o1Boxes[i], hidden)
    ensures forall i :: 0 <= i < |actions| ==> (actions[i].CommitObject? <==> i == 0)
    ensures forall i :: 0 < i < |actions| ==> actions[i].o == hidden
  {
    forall i | 0 < i < |actions|
      ensures actions[i].ValidateOutsideBox? && actions[i].o == hidden
    {
      assert actions[(i - 1) + 1] == ValidateOutsideBox(o1Boxes[i - 1], hidden);
    }
  }
}
