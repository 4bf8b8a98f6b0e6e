/** The 4x4 matrix that the camera, the meshes and the scene pass around. Matrix.h is not
    part of this model: the matrix is four rows of Vector4 with the usual row-by-column
    product, and a vector is transformed as a row vector (w = 0), the convention of the
    framework the repository builds on. The builders that need trigonometry
    (rotations, look-at) and the other transcendental helpers are parameters of the
    model, collected in MathEnv. */
module Matrices {
  import opened Vectors

  datatype Matrix = Matrix(r0: Vector4, r1: Vector4, r2: Vector4, r3: Vector4)

  const Identity := Matrix(Vector4(1.0, 0.0, 0.0, 0.0), Vector4(0.0, 1.0, 0.0, 0.0),
                           Vector4(0.0, 0.0, 1.0, 0.0), Vector4(0.0, 0.0, 0.0, 1.0))

  const ZeroMatrix := Matrix(Vector4(0.0, 0.0, 0.0, 0.0), Vector4(0.0, 0.0, 0.0, 0.0),
                             Vector4(0.0, 0.0, 0.0, 0.0), Vector4(0.0, 0.0, 0.0, 0.0))

  /** The external math the core calls but does not define: PI and Lerpf (MathHelpers.h),
      tanf, the rotation and look-at builders of Matrix, and the value a default-constructed
      Matrix holds. */
  datatype MathEnv = MathEnv(
    pi: real,
    tan: real -> real,
    lerp: (real, real, real) -> real,
    rotationX: real -> Matrix,
    rotationY: real -> Matrix,
    lookAtLH: (Vector3, Vector3) -> Matrix,
    defaultMatrix: Matrix)

  function Row(m: Matrix, i: int): Vector4
    requires 0 <= i <= 3
  {
    if i == 0 then m.r0 else if i == 1 then m.r1 else if i == 2 then m.r2 else m.r3
  }

  /** The entry in row i, column j. */
  function Entry(m: Matrix, i: int, j: int): real
    requires 0 <= i <= 3 && 0 <= j <= 3
  {
    At4(Row(m, i), j)
  }

  function Column(m: Matrix, j: int): Vector4
    requires 0 <= j <= 3
  {
    Vector4(At4(m.r0, j), At4(m.r1, j), At4(m.r2, j), At4(m.r3, j))
  }

  function RowTimes(v: Vector4, m: Matrix): Vector4
  {
    Vector4(Dot4(v, Column(m, 0)), Dot4(v, Column(m, 1)), Dot4(v, Column(m, 2)), Dot4(v, Column(m, 3)))
  }

  /** The matrix product a * b. */
  function Mul(a: Matrix, b: Matrix): Matrix
  {
    Matrix(RowTimes(a.r0, b), RowTimes(a.r1, b), RowTimes(a.r2, b), RowTimes(a.r3, b))
  }

  /** Transforms a direction: the row vector (v, 0) times m, keeping x, y and z. */
  function TransformVector(m: Matrix, v: Vector3): Vector3
  {
    Vector3(v.x * m.r0.x + v.y * m.r1.x + v.z * m.r2.x,
            v.x * m.r0.y + v.y * m.r1.y + v.z * m.r2.y,
            v.x * m.r0.z + v.y * m.r1.z + v.z * m.r2.z)
  }

  /** The identity is neutral on both sides of the product. */
  lemma IdentityIsNeutral(m: Matrix)
    ensures Mul(Identity, m) == m
    ensures Mul(m, Identity) == m
  {
  }

  /** Transforming a scaled direction scales the transformed direction. */
  lemma TransformScales(m: Matrix, v: Vector3, k: real)
    ensures TransformVector(m, Scale(v, k)) == Scale(TransformVector(m, v), k)
  {
    var t := TransformVector(m, v);
    var s := TransformVector(m, Scale(v, k));
    ScaledCombination(v.x, v.y, v.z, m.r0.x, m.r1.x, m.r2.x, k);
    ScaledCombination(v.x, v.y, v.z, m.r0.y, m.r1.y, m.r2.y, k);
    ScaledCombination(v.x, v.y, v.z, m.r0.z, m.r1.z, m.r2.z, k);
    assert s.x == t.x * k && s.y == t.y * k && s.z == t.z * k;
  }

  /** One component of a transformed direction is linear in the direction. */
  lemma ScaledCombination(a: real, b: real, c: real, p: real, q: real, r: real, k: real)
    ensures (a * k) * p + (b * k) * q + (c * k) * r == (a * p + b * q + c * r) * k
  {
  }
}
