/** Three-component vectors over the reals, standing in for the engine's Math::Vector3.
    Only the operations the capsule raycast uses are modelled: +, -, scalar * and Dot. */
module Vectors {
  import opened RealMath

  datatype Vector3 = Vector3(x: real, y: real, z: real)

  const Zero: Vector3 := Vector3(0.0, 0.0, 0.0)

  /** The canonical long axis of a capsule in its local frame. */
  const Up: Vector3 := Vector3(0.0, 1.0, 0.0)

  function Add(u: Vector3, v: Vector3): Vector3 {
    Vector3(u.x + v.x, u.y + v.y, u.z + v.z)
  }

  function Sub(u: Vector3, v: Vector3): Vector3 {
    Vector3(u.x - v.x, u.y - v.y, u.z - v.z)
  }

  /** `v * k` in the source. */
  function Scale(v: Vector3, k: real): Vector3 {
    Vector3(v.x * k, v.y * k, v.z * k)
  }

  function Dot(u: Vector3, v: Vector3): real {
    u.x * v.x + u.y * v.y + u.z * v.z
  }

  /** A squared length is never negative. */
  lemma DotSelfNonNeg(v: Vector3)
    ensures 0.0 <= Dot(v, v)
  {
    SquareNonNeg(v.x);
    SquareNonNeg(v.y);
    SquareNonNeg(v.z);
  }

  /** Squared length of `u + v * t`, expanded as a polynomial in `t`. */
  lemma DotAlongLine(u: Vector3, v: Vector3, t: real)
    ensures Dot(Add(u, Scale(v, t)), Add(u, Scale(v, t)))
         == Dot(u, u) + 2.0 * t * Dot(u, v) + t * t * Dot(v, v)
  {
  }

  /** `Dot` is symmetric. */
  lemma DotSymmetric(u: Vector3, v: Vector3)
    ensures Dot(u, v) == Dot(v, u)
  {
  }

  /** `Dot` is linear in its first argument along a line `u + v * t`. */
  lemma DotAddScale(u: Vector3, v: Vector3, t: real, w: Vector3)
    ensures Dot(Add(u, Scale(v, t)), w) == Dot(u, w) + t * Dot(v, w)
  {
  }

  /** A scalar factor on the second argument of `Dot` comes out. */
  lemma DotScaleRight(u: Vector3, v: Vector3, k: real)
    ensures Dot(u, Scale(v, k)) == k * Dot(u, v)
  {
  }

  lemma SubSelf(v: Vector3)
    ensures Sub(v, v) == Zero
  {
  }

  /** Removing `v * k` with `k = Dot(v, u) / Dot(v, v)` leaves a part of `u` perpendicular to `v`. */
  lemma PerpendicularPart(u: Vector3, v: Vector3)
    requires Dot(v, v) != 0.0
    ensures Dot(Sub(u, Scale(v, Dot(v, u) / Dot(v, v))), v) == 0.0
  {
    var k := Dot(v, u) / Dot(v, v);
    assert Dot(Sub(u, Scale(v, k)), v) == Dot(u, v) - k * Dot(v, v);
    assert k * Dot(v, v) == Dot(v, u);
  }
}
