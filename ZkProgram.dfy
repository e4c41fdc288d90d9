/**
 * `ValidatePlanes`, the recursive proof program: each step re-derives the
 * witness object's commitment, binds it to the public commitment when the
 * step is recursive, checks the object against the step's plane, and
 * yields a proof over the step's public input.
 *
 * Proofs are opaque handles that carry their public input and whether they
 * verify; the proving backend itself is not modelled. The commitment hash
 * is a parameter: any deterministic function of (cx, cy, cz, r).
 */
module ZkProgram {
  import opened Results
  import opened Zk3d
  import opened Structs
  import StructsProperties

  /** A commitment: one field element, modelled as an integer. */
  type Commitment = int

  /** The hash behind `Object3D.getHash`, over (center.x, center.y, center.z, radius). */
  type Hasher = (int, int, int, int) -> Commitment

  function GetHash(hash: Hasher, o: Object3D): Commitment
  {
    hash(o.center.x, o.center.y, o.center.z, o.radius)
  }

  /** The public input of every step. */
  datatype PlaneAndObjectCommitment = PlaneAndObjectCommitment(plane: Plane, objectCommitment: Commitment)

  /** An opaque proof: its public input, and whether it verifies (a dummy proof does not). */
  datatype Proof = Proof(publicInput: PlaneAndObjectCommitment, verifies: bool)

  datatype RunError = ObjectMismatch | Geometry(error: AssertionError) | PriorProofRejected

  /** The text the caller sees, where the program defines one. */
  function RunMessage(e: RunError): Option<string>
  {
    match e
    case ObjectMismatch => Some("object must match the previously commited object")
    case Geometry(g) => Some(Message(g))
    case PriorProofRejected => None
  }

  /** `ValidatePlanesProof.dummy`: a placeholder of the right shape that does not verify. */
  function DummyProof(pub: PlaneAndObjectCommitment): Proof
  {
    Proof(pub, false)
  }

  /**
   * `ValidatePlanes.run(publicInput, witness, priorProof, isRecursive)`.
   * Checks, in order: the commitment (recursive steps only), the plane,
   * then the prior proof (recursive steps only).
   */
  function Run(hash: Hasher, pub: PlaneAndObjectCommitment, witnessObject: Object3D, prior: Proof, isRecursive: bool)
    : (r: Result<Proof, RunError>)
    ensures r.Ok? <==> && (isRecursive ==> GetHash(hash, witnessObject) == pub.objectCommitment && prior.verifies)
                       && IsOnInnerSide(pub.plane, witnessObject)
    ensures r.Ok? ==> r.value == Proof(pub, true)
    ensures isRecursive && GetHash(hash, witnessObject) != pub.objectCommitment ==> r == Err(ObjectMismatch)
    ensures r.Err? && r.error.Geometry? ==> r.error.error == NotOnInnerSide
  {
    var commitment := GetHash(hash, witnessObject);
    if isRecursive && commitment != pub.objectCommitment then
      Err(ObjectMismatch)
    else
      match AssertObjectIsOnInnerSide(pub.plane, witnessObject)
      case Fail(e) => Err(Geometry(e))
      case Pass =>
        if isRecursive && !prior.verifies then Err(PriorProofRejected) else Ok(Proof(pub, true))
  }

  /** A successful step attests that the witness's whole ball is on the inner side of its plane. */
  lemma RunAttestsBallInside(hash: Hasher, pub: PlaneAndObjectCommitment, witnessObject: Object3D,
                             prior: Proof, isRecursive: bool, p: Point)
    requires Run(hash, pub, witnessObject, prior, isRecursive).Ok?
    requires InBall(p, witnessObject)
    ensures RealSignedDistance(pub.plane, p) < 0.0
  {
    StructsProperties.InnerSideKeepsBallInside(pub.plane, witnessObject, p);
  }

  /** A base (non-recursive) step looks neither at the prior proof nor at the hash. */
  lemma BaseStepIgnoresPriorAndHash(hash: Hasher, hash': Hasher, pub: PlaneAndObjectCommitment,
                                    witnessObject: Object3D, prior: Proof, prior': Proof)
    ensures Run(hash, pub, witnessObject, prior, false) == Run(hash', pub, witnessObject, prior', false)
  {
  }

  /**
   * A recursive step checks the prior proof's validity only: the public
   * input the prior proof carries is not compared with this step's.
   */
  lemma PriorPublicInputUnchecked(hash: Hasher, pub: PlaneAndObjectCommitment, witnessObject: Object3D,
                                  priorPub: PlaneAndObjectCommitment, priorPub': PlaneAndObjectCommitment)
    ensures Run(hash, pub, witnessObject, Proof(priorPub, true), true)
         == Run(hash, pub, witnessObject, Proof(priorPub', true), true)
  {
  }

  /**
   * The loop of the proving test: one recursive step per plane, each with
   * the object's recomputed hash, so no step can fail on the commitment.
   */
  function ValidateAllPlanes(hash: Hasher, planes: seq<Plane>, o: Object3D, start: Proof): (r: Result<Proof, RunError>)
    ensures r.Err? ==> r.error != ObjectMismatch
    ensures r.Ok? && planes != [] ==> r.value == Proof(PlaneAndObjectCommitment(planes[|planes| - 1], GetHash(hash, o)), true)
    ensures r.Ok? && planes == [] ==> r.value == start
    decreases |planes|
  {
    if planes == [] then Ok(start)
    else
      var next :- Run(hash, PlaneAndObjectCommitment(planes[0], GetHash(hash, o)), o, start, true);
      ValidateAllPlanes(hash, planes[1..], o, next)
  }

  /** Each step's proof stays verifying, so every later step of the loop accepts it. */
  lemma {:induction false} ValidateAllPlanesIffInside(hash: Hasher, planes: seq<Plane>, o: Object3D, start: Proof)
    requires start.verifies
    ensures ValidateAllPlanes(hash, planes, o, start).Ok?
        <==> forall i :: 0 <= i < |planes| ==> IsOnInnerSide(planes[i], o)
    ensures ValidateAllPlanes(hash, planes, o, start).Err?
        ==> ValidateAllPlanes(hash, planes, o, start).error == Geometry(NotOnInnerSide)
    ensures ValidateAllPlanes(hash, planes, o, start).Ok? && planes != []
        ==> ValidateAllPlanes(hash, planes, o, start).value
            == Proof(PlaneAndObjectCommitment(planes[|planes| - 1], GetHash(hash, o)), true)
    decreases |planes|
  {
    if planes != [] {
      var r := Run(hash, PlaneAndObjectCommitment(planes[0], GetHash(hash, o)), o, start, true);
      if r.Ok? {
        ValidateAllPlanesIffInside(hash, planes[1..], o, r.value);
        assert forall i :: 1 <= i < |planes| ==> planes[i] == planes[1..][i - 1];
      }
    }
  }

  /** The proof loop accepts exactly the objects that the room's boundary check accepts. */
  lemma ValidateAllPlanesAgreesWithRoom(hash: Hasher, room: Room, o: Object3D, start: Proof)
    requires start.verifies
    ensures ValidateAllPlanes(hash, room.planes, o, start).Ok? <==> AssertObjectIsInside(room, o).Pass?
  {
    ValidateAllPlanesIffInside(hash, room.planes, o, start);
  }

  /** One step of a general chain: its public input and the witness object the prover supplies. */
  datatype Step = Step(pub: PlaneAndObjectCommitment, witnessObject: Object3D)

  /** A chain of recursive steps, each consuming the previous step's proof. */
  function RunSteps(hash: Hasher, steps: seq<Step>, start: Proof): (r: Result<Proof, RunError>)
    ensures r.Ok? && steps != [] ==> r.value == Proof(steps[|steps| - 1].pub, true)
    ensures r.Ok? && steps == [] ==> r.value == start
    decreases |steps|
  {
    if steps == [] then Ok(start)
    else
      var next :- Run(hash, steps[0].pub, steps[0].witnessObject, start, true);
      RunSteps(hash, steps[1..], next)
  }

  /**
   * A successful chain whose public inputs all carry the commitment c binds
   * every step: each witness hashes to c and lies inside its step's plane.
   * Under collision resistance of the hash, every witness is the same object.
   */
  lemma {:induction false} ChainBindsEveryWitness(hash: Hasher, steps: seq<Step>, start: Proof, c: Commitment, k: int)
    requires RunSteps(hash, steps, start).Ok?
    requires forall i :: 0 <= i < |steps| ==> steps[i].pub.objectCommitment == c
    requires 0 <= k < |steps|
    ensures GetHash(hash, steps[k].witnessObject) == c
    ensures IsOnInnerSide(steps[k].pub.plane, steps[k].witnessObject)
    decreases |steps|
  {
    var r := Run(hash, steps[0].pub, steps[0].witnessObject, start, true);
    if k > 0 {
      assert steps[k] == steps[1..][k - 1];
      ChainBindsEveryWitness(hash, steps[1..], r.value, c, k - 1);
    }
  }
}
