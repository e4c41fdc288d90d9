/**
 * Fixed-point scalars and three-dimensional integer vectors (the `Real64`
 * and `Vector3` types the geometric proof is written over).
 *
 * A `Real64` holding the real number x is the integer round(x * SCALE).
 * Arithmetic is on unbounded integers: the range checks of the proving
 * field are not modelled.
 */
module Zk3d {

  /** The fixed-point scale factor, 10^6. */
  const SCALE: int := 1000000

  /** JavaScript's `Math.round` on an exact real: nearest integer, halves rounded up. */
  function Round(x: real): (r: int)
    ensures x - 0.5 < r as real <= x + 0.5
  {
    (x + 0.5).Floor
  }

  /** `Real64.from(x)`: the fixed-point representation of the real number x. */
  function FromReal(x: real): (r: int)
    ensures x * SCALE as real - 0.5 < r as real <= x * SCALE as real + 0.5
  {
    Round(x * SCALE as real)
  }

  /** A number with at most six decimals is represented exactly. */
  lemma FromRealExact(k: int)
    ensures FromReal(k as real / SCALE as real) == k
  {
    var x := k as real / SCALE as real;
    assert x * SCALE as real == k as real;
  }

  /** Addition commutes with `Real64.from` up to one unit of the last place. */
  lemma FromRealAdditive(a: real, b: real)
    ensures -1 <= FromReal(a) + FromReal(b) - FromReal(a + b) <= 1
  {
    assert (a + b) * SCALE as real == a * SCALE as real + b * SCALE as real;
  }

  datatype Vector3 = Vector3(x: int, y: int, z: int)

  function Add(a: Vector3, b: Vector3): Vector3
  {
    Vector3(a.x + b.x, a.y + b.y, a.z + b.z)
  }

  /** Componentwise difference a - b. */
  function Sub(a: Vector3, b: Vector3): (r: Vector3)
    ensures Add(r, b) == a
  {
    Vector3(a.x - b.x, a.y - b.y, a.z - b.z)
  }

  function Dot(a: Vector3, b: Vector3): int
  {
    a.x * b.x + a.y * b.y + a.z * b.z
  }

  /** The cross product a x b. */
  function Cross(a: Vector3, b: Vector3): Vector3
  {
    Vector3(a.y * b.z - a.z * b.y, a.z * b.x - a.x * b.z, a.x * b.y - a.y * b.x)
  }

  /** The cross product is orthogonal to both of its operands. */
  lemma CrossOrthogonal(a: Vector3, b: Vector3)
    ensures Dot(Cross(a, b), a) == 0 && Dot(Cross(a, b), b) == 0
  {
  }

  /** The dot product distributes over the difference of its second operand. */
  lemma DotSub(n: Vector3, a: Vector3, b: Vector3)
    ensures Dot(n, Sub(a, b)) == Dot(n, a) - Dot(n, b)
  {
    calc {
      Dot(n, Sub(a, b));
      n.x * (a.x - b.x) + n.y * (a.y - b.y) + n.z * (a.z - b.z);
      (n.x * a.x - n.x * b.x) + (n.y * a.y - n.y * b.y) + (n.z * a.z - n.z * b.z);
    }
  }

  /** A squared length is never negative. */
  lemma DotSelfNonNegative(a: Vector3)
    ensures Dot(a, a) >= 0
  {
  }
}
