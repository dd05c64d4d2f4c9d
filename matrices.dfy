/** The linear (3x3) part of the engine's Math::Matrix4. Every matrix product in the capsule
    code is finally applied to a direction (a Vector4 with w = 0), so translation never
    matters and a 3x3 matrix over the reals carries everything the raycast uses. */
module Matrices {
  import opened Vectors

  /** A matrix given by its rows; `Apply(m, v)` is the product `m * v` of a column vector. */
  datatype Matrix3 = Matrix3(row0: Vector3, row1: Vector3, row2: Vector3)

  function Apply(m: Matrix3, v: Vector3): Vector3 {
    Vector3(Dot(m.row0, v), Dot(m.row1, v), Dot(m.row2, v))
  }

  /** One row of the product `a * b`: the combination of b's rows weighted by `r`. */
  function CombineRows(r: Vector3, b: Matrix3): Vector3 {
    Add(Add(Scale(b.row0, r.x), Scale(b.row1, r.y)), Scale(b.row2, r.z))
  }

  /** `a * b`, also written `a *= b` when `a` is updated in place. */
  function Mul(a: Matrix3, b: Matrix3): Matrix3 {
    Matrix3(CombineRows(a.row0, b), CombineRows(a.row1, b), CombineRows(a.row2, b))
  }

  /** Matrix4::Scale(v): the diagonal matrix with `v` on its diagonal. */
  function Diagonal(v: Vector3): Matrix3 {
    Matrix3(Vector3(v.x, 0.0, 0.0), Vector3(0.0, v.y, 0.0), Vector3(0.0, 0.0, v.z))
  }

  /** Vector3{k}: a vector whose three components are all `k`. */
  function Splat(k: real): Vector3 {
    Vector3(k, k, k)
  }

  const Identity: Matrix3 :=
    Matrix3(Vector3(1.0, 0.0, 0.0), Vector3(0.0, 1.0, 0.0), Vector3(0.0, 0.0, 1.0))

  /** Matrix4::zRot90, taken as the right-handed quarter turn about Z (it sends Y to -X). */
  const ZRot90: Matrix3 :=
    Matrix3(Vector3(0.0, -1.0, 0.0), Vector3(1.0, 0.0, 0.0), Vector3(0.0, 0.0, 1.0))

  /** Matrix4::xRot90, taken as the right-handed quarter turn about X (it sends Y to Z). */
  const XRot90: Matrix3 :=
    Matrix3(Vector3(1.0, 0.0, 0.0), Vector3(0.0, 0.0, -1.0), Vector3(0.0, 1.0, 0.0))

  /** A row of a product, applied to `v`, is the row applied to `b * v`. */
  lemma CombineRowsDot(r: Vector3, b: Matrix3, v: Vector3)
    ensures Dot(CombineRows(r, b), v) == Dot(r, Apply(b, v))
  {
    RowTimesColumn(r.x, r.y, r.z, b.row0.x, b.row0.y, b.row0.z, b.row1.x, b.row1.y, b.row1.z,
                   b.row2.x, b.row2.y, b.row2.z, v.x, v.y, v.z);
  }

  /** CombineRowsDot written out over the fifteen scalars involved. */
  lemma RowTimesColumn(rx: real, ry: real, rz: real, ax: real, ay: real, az: real,
                       ex: real, ey: real, ez: real, cx: real, cy: real, cz: real,
                       vx: real, vy: real, vz: real)
    ensures ((ax * rx + ex * ry) + cx * rz) * vx + ((ay * rx + ey * ry) + cy * rz) * vy
            + ((az * rx + ez * ry) + cz * rz) * vz
         == rx * (ax * vx + ay * vy + az * vz) + ry * (ex * vx + ey * vy + ez * vz)
            + rz * (cx * vx + cy * vy + cz * vz)
  {
  }

  /** Applying a product is applying its factors right to left. */
  lemma ApplyMul(a: Matrix3, b: Matrix3, v: Vector3)
    ensures Apply(Mul(a, b), v) == Apply(a, Apply(b, v))
  {
    CombineRowsDot(a.row0, b, v);
    CombineRowsDot(a.row1, b, v);
    CombineRowsDot(a.row2, b, v);
  }

  /** A matrix is linear: it commutes with scalar multiplication. */
  lemma ApplyScale(m: Matrix3, v: Vector3, k: real)
    ensures Apply(m, Scale(v, k)) == Scale(Apply(m, v), k)
  {
  }
}
