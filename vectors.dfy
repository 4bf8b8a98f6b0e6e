/** Vector2, Vector3 and Vector4 of project/src/Structs.cpp, over the reals.
    The value operations are functions on datatypes; the compound assignment
    operators and the reference-returning operator[] update an lvalue in place
    and are methods on the classes Vector2Var, Vector3Var and Vector4Var.
    Magnitude, Normalize and Normalized (square roots) are not modelled. */
module Vectors {
  import Colors

  datatype Vector2 = Vector2(x: real, y: real)
  datatype Vector3 = Vector3(x: real, y: real, z: real)
  datatype Vector4 = Vector4(x: real, y: real, z: real, w: real)

  /** The vertex record of Structs.h: a position, a colour and a texture coordinate. */
  datatype Vertex = Vertex(position: Vector3, color: Colors.ColorRGB, uv: Vector2)

  /** sizeof(Vertex): eight 4-byte floats with no padding. */
  const VertexSize: nat := 32

  const UnitX2 := Vector2(1.0, 0.0)
  const UnitY2 := Vector2(0.0, 1.0)
  const Zero2 := Vector2(0.0, 0.0)

  const UnitX := Vector3(1.0, 0.0, 0.0)
  const UnitY := Vector3(0.0, 1.0, 0.0)
  const UnitZ := Vector3(0.0, 0.0, 1.0)
  const Zero3 := Vector3(0.0, 0.0, 0.0)

  // ---------------------------------------------------------------- Vector2

  /** The constructor Vector2(from, to): the displacement that leads from `from` to `to`. */
  function Vector2Between(from: Vector2, to: Vector2): (r: Vector2)
    ensures Add2(from, r) == to
  {
    Vector2(to.x - from.x, to.y - from.y)
  }

  function SqrMagnitude2(v: Vector2): (r: real)
    ensures r >= 0.0
    ensures r == Dot2(v, v)
  {
    SquareIsPositive(v.x); SquareIsPositive(v.y);
    v.x * v.x + v.y * v.y
  }

  function Dot2(v1: Vector2, v2: Vector2): real
  {
    v1.x * v2.x + v1.y * v2.y
  }

  /** The 2D cross product (the z component of the 3D cross product). */
  function Cross2(v1: Vector2, v2: Vector2): real
  {
    v1.x * v2.y - v1.y * v2.x
  }

  function Scale2(v: Vector2, scale: real): Vector2
  {
    Vector2(v.x * scale, v.y * scale)
  }

  /** operator/(float): division by zero is not defined over the reals. */
  function Divide2(v: Vector2, scale: real): Vector2
    requires scale != 0.0
  {
    Vector2(v.x / scale, v.y / scale)
  }

  function Add2(a: Vector2, b: Vector2): Vector2
  {
    Vector2(a.x + b.x, a.y + b.y)
  }

  function Sub2(a: Vector2, b: Vector2): Vector2
  {
    Vector2(a.x - b.x, a.y - b.y)
  }

  function Neg2(v: Vector2): Vector2
  {
    Vector2(-v.x, -v.y)
  }

  /** The const operator[]; the source asserts 0 <= index <= 1. */
  function At2(v: Vector2, index: int): real
    requires 0 <= index <= 1
  {
    if index == 0 then v.x else v.y
  }

  // ---------------------------------------------------------------- Vector3

  /** The constructor Vector3(from, to). */
  function Vector3Between(from: Vector3, to: Vector3): (r: Vector3)
    ensures Add(from, r) == to
  {
    Vector3(to.x - from.x, to.y - from.y, to.z - from.z)
  }

  /** The constructor Vector3(const Vector4&): drops w. */
  function FromVector4(v: Vector4): (r: Vector3)
    ensures ToVector4(r) == v.(w := 0.0) && ToPoint4(r) == v.(w := 1.0)
  {
    Vector3(v.x, v.y, v.z)
  }

  function SqrMagnitude(v: Vector3): (r: real)
    ensures r >= 0.0
    ensures r == Dot(v, v)
  {
    SquareIsPositive(v.x); SquareIsPositive(v.y); SquareIsPositive(v.z);
    v.x * v.x + v.y * v.y + v.z * v.z
  }

  function Dot(v1: Vector3, v2: Vector3): real
  {
    v1.x * v2.x + v1.y * v2.y + v1.z * v2.z
  }

  function Cross(v1: Vector3, v2: Vector3): Vector3
  {
    Vector3(v1.y * v2.z - v1.z * v2.y, v1.z * v2.x - v1.x * v2.z, v1.x * v2.y - v1.y * v2.x)
  }

  /** The component of v1 along v2; the source divides by Dot(v2, v2) unguarded. */
  function Project(v1: Vector3, v2: Vector3): Vector3
    requires Dot(v2, v2) != 0.0
  {
    Scale(v2, Dot(v1, v2) / Dot(v2, v2))
  }

  /** The component of v1 orthogonal to v2. */
  function Reject(v1: Vector3, v2: Vector3): Vector3
    requires Dot(v2, v2) != 0.0
  {
    Sub(v1, Scale(v2, Dot(v1, v2) / Dot(v2, v2)))
  }

  /** v1 - (2 * Dot(v1, v2)) * v2: the mirror image of v1 in the plane with normal v2. */
  function Reflect(v1: Vector3, v2: Vector3): Vector3
  {
    Sub(v1, ScaleLeft(2.0 * Dot(v1, v2), v2))
  }

  function ToPoint4(v: Vector3): (r: Vector4)
    ensures r.w == 1.0 && GetXYZ(r) == v
  {
    Vector4(v.x, v.y, v.z, 1.0)
  }

  function ToVector4(v: Vector3): (r: Vector4)
    ensures r.w == 0.0 && GetXYZ(r) == v
  {
    Vector4(v.x, v.y, v.z, 0.0)
  }

  function GetXY3(v: Vector3): (r: Vector2)
    ensures r.x == At(v, 0) && r.y == At(v, 1)
  {
    Vector2(v.x, v.y)
  }

  function Scale(v: Vector3, scale: real): Vector3
  {
    Vector3(v.x * scale, v.y * scale, v.z * scale)
  }

  /** The global operator*(float, const Vector3&). */
  function ScaleLeft(scale: real, v: Vector3): (r: Vector3)
    ensures r == Scale(v, scale)
  {
    Vector3(v.x * scale, v.y * scale, v.z * scale)
  }

  function Divide(v: Vector3, scale: real): Vector3
    requires scale != 0.0
  {
    Vector3(v.x / scale, v.y / scale, v.z / scale)
  }

  function Add(a: Vector3, b: Vector3): Vector3
  {
    Vector3(a.x + b.x, a.y + b.y, a.z + b.z)
  }

  function Sub(a: Vector3, b: Vector3): Vector3
  {
    Vector3(a.x - b.x, a.y - b.y, a.z - b.z)
  }

  function Neg(v: Vector3): Vector3
  {
    Vector3(-v.x, -v.y, -v.z)
  }

  /** The const operator[]; the source asserts 0 <= index <= 2. */
  function At(v: Vector3, index: int): real
    requires 0 <= index <= 2
  {
    if index == 0 then v.x else if index == 1 then v.y else v.z
  }

  // ---------------------------------------------------------------- Vector4

  /** The constructor Vector4(const Vector3&, float). */
  function Vector4From(v: Vector3, w: real): (r: Vector4)
    ensures GetXYZ(r) == v && r.w == w
  {
    Vector4(v.x, v.y, v.z, w)
  }

  function SqrMagnitude4(v: Vector4): (r: real)
    ensures r >= 0.0
    ensures r == Dot4(v, v)
  {
    SquareIsPositive(v.x); SquareIsPositive(v.y); SquareIsPositive(v.z); SquareIsPositive(v.w);
    v.x * v.x + v.y * v.y + v.z * v.z + v.w * v.w
  }

  function GetXY4(v: Vector4): (r: Vector2)
    ensures r == GetXY3(GetXYZ(v))
  {
    Vector2(v.x, v.y)
  }

  function GetXYZ(v: Vector4): Vector3
  {
    Vector3(v.x, v.y, v.z)
  }

  function Dot4(v1: Vector4, v2: Vector4): (r: real)
    ensures r == Dot(GetXYZ(v1), GetXYZ(v2)) + v1.w * v2.w
  {
    v1.x * v2.x + v1.y * v2.y + v1.z * v2.z + v1.w * v2.w
  }

  function Scale4(v: Vector4, scale: real): Vector4
  {
    Vector4(v.x * scale, v.y * scale, v.z * scale, v.w * scale)
  }

  function Add4(a: Vector4, b: Vector4): Vector4
  {
    Vector4(a.x + b.x, a.y + b.y, a.z + b.z, a.w + b.w)
  }

  function Sub4(a: Vector4, b: Vector4): Vector4
  {
    Vector4(a.x - b.x, a.y - b.y, a.z - b.z, a.w - b.w)
  }

  /** The const operator[]; the source asserts 0 <= index <= 3. */
  function At4(v: Vector4, index: int): real
    requires 0 <= index <= 3
  {
    if index == 0 then v.x else if index == 1 then v.y else if index == 2 then v.z else v.w
  }

  // ---------------------------------------------------------------- lemmas

  lemma SquareIsPositive(a: real)
    ensures a * a >= 0.0
  {
    if a < 0.0 {
      assert a * a == (-a) * (-a);
    }
  }

  /** The two-point constructors are the difference `to - from`. */
  lemma BetweenIsDifference(f2: Vector2, t2: Vector2, f3: Vector3, t3: Vector3)
    ensures Vector2Between(f2, t2) == Sub2(t2, f2)
    ensures Vector3Between(f3, t3) == Sub(t3, f3)
  {
  }

  /** The cross product is orthogonal to both of its arguments. */
  lemma CrossIsOrthogonal(a: Vector3, b: Vector3)
    ensures Dot(Cross(a, b), a) == 0.0
    ensures Dot(Cross(a, b), b) == 0.0
  {
    var c := Cross(a, b);
    assert Dot(c, a) == (a.y * b.z) * a.x - (a.z * b.y) * a.x + (a.z * b.x) * a.y - (a.x * b.z) * a.y
                        + (a.x * b.y) * a.z - (a.y * b.x) * a.z;
    assert Dot(c, b) == (a.y * b.z) * b.x - (a.z * b.y) * b.x + (a.z * b.x) * b.y - (a.x * b.z) * b.y
                        + (a.x * b.y) * b.z - (a.y * b.x) * b.z;
  }

  /** Both cross products are anti-commutative, and a 2D vector crossed with itself is 0. */
  lemma CrossIsAntiCommutative(a: Vector3, b: Vector3, u: Vector2, v: Vector2)
    ensures Cross(a, b) == Neg(Cross(b, a))
    ensures Cross(a, a) == Zero3
    ensures Cross2(u, v) == -Cross2(v, u)
    ensures Cross2(u, u) == 0.0
  {
  }

  /** Dot is linear in its first argument. */
  lemma DotOfSubScale(a: Vector3, n: Vector3, k: real)
    ensures Dot(Sub(a, Scale(n, k)), n) == Dot(a, n) - k * Dot(n, n)
  {
    assert Dot(Sub(a, Scale(n, k)), n)
        == (a.x - n.x * k) * n.x + (a.y - n.y * k) * n.y + (a.z - n.z * k) * n.z;
    assert (a.x - n.x * k) * n.x == a.x * n.x - k * (n.x * n.x);
    assert (a.y - n.y * k) * n.y == a.y * n.y - k * (n.y * n.y);
    assert (a.z - n.z * k) * n.z == a.z * n.z - k * (n.z * n.z);
  }

  /** Projection and rejection split v1 into two parts that add up to it; the rejected part is
      orthogonal to v2. */
  lemma ProjectPlusReject(v1: Vector3, v2: Vector3)
    requires Dot(v2, v2) != 0.0
    ensures Add(Project(v1, v2), Reject(v1, v2)) == v1
    ensures Dot(Reject(v1, v2), v2) == 0.0
  {
    var k := Dot(v1, v2) / Dot(v2, v2);
    DotOfSubScale(v1, v2, k);
    assert k * Dot(v2, v2) == Dot(v1, v2);
  }

  /** Reflecting twice in the same unit normal gives back the original vector. */
  lemma ReflectIsInvolution(v: Vector3, n: Vector3)
    requires Dot(n, n) == 1.0
    ensures Reflect(Reflect(v, n), n) == v
  {
    var d := Dot(v, n);
    var r := Reflect(v, n);
    assert r == Sub(v, Scale(n, 2.0 * d));
    DotOfSubScale(v, n, 2.0 * d);
    assert Dot(r, n) == -d;
    assert Reflect(r, n) == Sub(r, Scale(n, -2.0 * d));
  }

  /** Reflection keeps the component orthogonal to a unit normal and flips the one along it. */
  lemma ReflectFlipsNormalComponent(v: Vector3, n: Vector3)
    requires Dot(n, n) == 1.0
    ensures Dot(Reflect(v, n), n) == -Dot(v, n)
  {
    DotOfSubScale(v, n, 2.0 * Dot(v, n));
  }

  /** Adding the negation gives the zero vector, in both dimensions that have a negation. */
  lemma AddNegIsZero(a: Vector3, u: Vector2)
    ensures Add(a, Neg(a)) == Zero3
    ensures Add2(u, Neg2(u)) == Zero2
  {
  }

  /** Widening to 4D and dropping w again gives back the 3D vector. */
  lemma FourVectorRoundTrip(v: Vector3, w: real)
    ensures GetXYZ(Vector4From(v, w)) == v
    ensures FromVector4(Vector4From(v, w)) == v
    ensures Vector4From(v, 1.0) == ToPoint4(v) && Vector4From(v, 0.0) == ToVector4(v)
  {
  }

  /** Reading back the components through operator[] rebuilds the vector. */
  lemma ComponentsRebuild(u: Vector2, v: Vector3, q: Vector4)
    ensures Vector2(At2(u, 0), At2(u, 1)) == u
    ensures Vector3(At(v, 0), At(v, 1), At(v, 2)) == v
    ensures Vector4(At4(q, 0), At4(q, 1), At4(q, 2), At4(q, 3)) == q
  {
  }

  // ---------------------------------------------------------------- lvalues

  /** A Vector2 object: the compound operators and the mutable operator[] act on it in place. */
  class Vector2Var {
    var x: real
    var y: real

    function Value(): Vector2
      reads this
    {
      Vector2(x, y)
    }

    constructor (v: Vector2)
      ensures Value() == v
    {
      x, y := v.x, v.y;
    }

    method MulAssign(scale: real)
      modifies this
      ensures Value() == Scale2(old(Value()), scale)
    {
      x := x * scale;
      y := y * scale;
    }

    method DivAssign(scale: real)
      requires scale != 0.0
      modifies this
      ensures Value() == Divide2(old(Value()), scale)
    {
      x := x / scale;
      y := y / scale;
    }

    method SubAssign(v: Vector2)
      modifies this
      ensures Value() == Sub2(old(Value()), v)
    {
      x := x - v.x;
      y := y - v.y;
    }

    method AddAssign(v: Vector2)
      modifies this
      ensures Value() == Add2(old(Value()), v)
    {
      x := x + v.x;
      y := y + v.y;
    }

    /** Writing through the reference that the mutable operator[] returns. */
    method SetAt(index: int, value: real)
      requires 0 <= index <= 1
      modifies this
      ensures At2(Value(), index) == value
      ensures forall j :: 0 <= j <= 1 && j != index ==> At2(Value(), j) == At2(old(Value()), j)
    {
      if index == 0 { x := value; } else { y := value; }
    }
  }

  /** A Vector3 object with the in-place members of Vector3. */
  class Vector3Var {
    var x: real
    var y: real
    var z: real

    function Value(): Vector3
      reads this
    {
      Vector3(x, y, z)
    }

    constructor (v: Vector3)
      ensures Value() == v
    {
      x, y, z := v.x, v.y, v.z;
    }

    method MulAssign(scale: real)
      modifies this
      ensures Value() == Scale(old(Value()), scale)
    {
      x := x * scale;
      y := y * scale;
      z := z * scale;
    }

    method DivAssign(scale: real)
      requires scale != 0.0
      modifies this
      ensures Value() == Divide(old(Value()), scale)
    {
      x := x / scale;
      y := y / scale;
      z := z / scale;
    }

    method SubAssign(v: Vector3)
      modifies this
      ensures Value() == Sub(old(Value()), v)
    {
      x := x - v.x;
      y := y - v.y;
      z := z - v.z;
    }

    method AddAssign(v: Vector3)
      modifies this
      ensures Value() == Add(old(Value()), v)
    {
      x := x + v.x;
      y := y + v.y;
      z := z + v.z;
    }

    method SetAt(index: int, value: real)
      requires 0 <= index <= 2
      modifies this
      ensures At(Value(), index) == value
      ensures forall j :: 0 <= j <= 2 && j != index ==> At(Value(), j) == At(old(Value()), j)
    {
      if index == 0 {
        x := value;
      } else if index == 1 {
        y := value;
      } else {
        z := value;
      }
    }
  }

  /** A Vector4 object; the source gives Vector4 only += and the mutable operator[]. */
  class Vector4Var {
    var x: real
    var y: real
    var z: real
    var w: real

    function Value(): Vector4
      reads this
    {
      Vector4(x, y, z, w)
    }

    constructor (v: Vector4)
      ensures Value() == v
    {
      x, y, z, w := v.x, v.y, v.z, v.w;
    }

    method AddAssign(v: Vector4)
      modifies this
      ensures Value() == Add4(old(Value()), v)
    {
      x := x + v.x;
      y := y + v.y;
      z := z + v.z;
      w := w + v.w;
    }

    method SetAt(index: int, value: real)
      requires 0 <= index <= 3
      modifies this
      ensures At4(Value(), index) == value
      ensures forall j :: 0 <= j <= 3 && j != index ==> At4(Value(), j) == At4(old(Value()), j)
    {
      if index == 0 {
        x := value;
      } else if index == 1 {
        y := value;
      } else if index == 2 {
        z := value;
      } else {
        w := value;
      }
    }
  }
}
