/** Points in 3D space and the 3x3 matrices that rotate them. */
module Vectors {

  /** One (x, y, z) triple: the last axis of length 3 of every NumPy coordinate array. */
  datatype Vec3 = Vec3(x: real, y: real, z: real)

  function Add(a: Vec3, b: Vec3): Vec3 {
    Vec3(a.x + b.x, a.y + b.y, a.z + b.z)
  }

  function Sub(a: Vec3, b: Vec3): Vec3 {
    Vec3(a.x - b.x, a.y - b.y, a.z - b.z)
  }

  /** Element-wise product, as NumPy's `*` of two length-3 arrays. */
  function Mul(a: Vec3, b: Vec3): Vec3 {
    Vec3(a.x * b.x, a.y * b.y, a.z * b.z)
  }

  function Scale(k: real, a: Vec3): Vec3 {
    Vec3(k * a.x, k * a.y, k * a.z)
  }

  function Dot(a: Vec3, b: Vec3): real {
    a.x * b.x + a.y * b.y + a.z * b.z
  }

  /** A 3x3 matrix, stored by rows. */
  datatype Mat3 = Mat3(r0: Vec3, r1: Vec3, r2: Vec3)

  /** `np.column_stack([c0, c1, c2])`: the matrix whose columns are c0, c1 and c2. */
  function ColumnStack(c0: Vec3, c1: Vec3, c2: Vec3): (m: Mat3)
    ensures m.r0 == Vec3(c0.x, c1.x, c2.x)
    ensures m.r1 == Vec3(c0.y, c1.y, c2.y)
    ensures m.r2 == Vec3(c0.z, c1.z, c2.z)
  {
    Mat3(Vec3(c0.x, c1.x, c2.x), Vec3(c0.y, c1.y, c2.y), Vec3(c0.z, c1.z, c2.z))
  }

  /** The matrix-vector product m v. */
  function MatVec(m: Mat3, v: Vec3): Vec3 {
    Vec3(Dot(m.r0, v), Dot(m.r1, v), Dot(m.r2, v))
  }

  /** Multiplying by a column-stacked matrix combines its columns with the vector's components. */
  lemma ColumnStackCombinesColumns(c0: Vec3, c1: Vec3, c2: Vec3, v: Vec3)
    ensures MatVec(ColumnStack(c0, c1, c2), v) == Add(Add(Scale(v.x, c0), Scale(v.y, c1)), Scale(v.z, c2))
  {
  }
}
