// Three-component vectors and 3x4 affine transforms, over exact reals.

module Vectors {

  datatype Float3 = Float3(x: real, y: real, z: real)

  datatype Float4 = Float4(x: real, y: real, z: real, w: real)

  /** A 3x4 affine transform, stored as its three rows. */
  datatype Transform = Transform(x: Float4, y: Float4, z: Float4)

  const Zero: Float3 := Float3(0.0, 0.0, 0.0)

  predicate IsZero(v: Float3) {
    v.x == 0.0 && v.y == 0.0 && v.z == 0.0
  }

  function Add(a: Float3, b: Float3): Float3 {
    Float3(a.x + b.x, a.y + b.y, a.z + b.z)
  }

  function Sub(a: Float3, b: Float3): Float3 {
    Float3(a.x - b.x, a.y - b.y, a.z - b.z)
  }

  function Scale(k: real, v: Float3): Float3 {
    Float3(k * v.x, k * v.y, k * v.z)
  }

  function Neg(v: Float3): Float3 {
    Float3(-v.x, -v.y, -v.z)
  }

  function Dot(a: Float3, b: Float3): real {
    a.x * b.x + a.y * b.y + a.z * b.z
  }

  function Cross(a: Float3, b: Float3): Float3 {
    Float3(a.y * b.z - a.z * b.y, a.z * b.x - a.x * b.z, a.x * b.y - a.y * b.x)
  }

  /** A row applied to the direction (x, y, z, 0): its last entry is ignored. */
  function Row(r: Float4, v: Float3): real {
    r.x * v.x + r.y * v.y + r.z * v.z
  }

  /** Rows applied to the point (x, y, z, 1): rotation, scale and translation. */
  function TransformPoint(t: Transform, p: Float3): Float3 {
    Float3(Row(t.x, p) + t.x.w, Row(t.y, p) + t.y.w, Row(t.z, p) + t.z.w)
  }

  /** Rows applied to the direction (x, y, z, 0): the translation column is ignored. */
  function TransformDirection(t: Transform, v: Float3): Float3 {
    Float3(Row(t.x, v), Row(t.y, v), Row(t.z, v))
  }

  /** Directions transform linearly: a sum is carried to the sum of the images. */
  lemma TransformDirectionAdditive(t: Transform, a: Float3, b: Float3)
    ensures TransformDirection(t, Add(a, b)) == Add(TransformDirection(t, a), TransformDirection(t, b))
  {
    RowAdditive(t.x, a, b);
    RowAdditive(t.y, a, b);
    RowAdditive(t.z, a, b);
  }

  lemma RowAdditive(r: Float4, a: Float3, b: Float3)
    ensures Row(r, Add(a, b)) == Row(r, a) + Row(r, b)
  {
    assert r.x * (a.x + b.x) == r.x * a.x + r.x * b.x;
    assert r.y * (a.y + b.y) == r.y * a.y + r.y * b.y;
    assert r.z * (a.z + b.z) == r.z * a.z + r.z * b.z;
  }

  /** The cross product is perpendicular to both of its operands. */
  lemma CrossPerpendicular(a: Float3, b: Float3)
    ensures Dot(a, Cross(a, b)) == 0.0
    ensures Dot(b, Cross(a, b)) == 0.0
  {
    assert Dot(a, Cross(a, b))
      == a.x * a.y * b.z - a.x * a.z * b.y + a.y * a.z * b.x - a.y * a.x * b.z + a.z * a.x * b.y - a.z * a.y * b.x;
    assert Dot(b, Cross(a, b))
      == b.x * a.y * b.z - b.x * a.z * b.y + b.y * a.z * b.x - b.y * a.x * b.z + b.z * a.x * b.y - b.z * a.y * b.x;
  }

  /** The mirror image of `i` about the normal `n`: 2 n (n . i) - i. */
  function Reflect(n: Float3, i: Float3): Float3 {
    Sub(Scale(2.0 * Dot(n, i), n), i)
  }

  /**
   * About a unit normal, reflection keeps the component along the normal,
   * keeps the length, and undoes itself.
   */
  lemma ReflectAboutUnitNormal(n: Float3, i: Float3)
    requires Dot(n, n) == 1.0
    ensures Dot(Reflect(n, i), n) == Dot(i, n)
    ensures Dot(Reflect(n, i), Reflect(n, i)) == Dot(i, i)
    ensures Reflect(n, Reflect(n, i)) == i
  {
    var d := Dot(n, i);
    var r := Reflect(n, i);
    DotSymmetric(n, i);
    DotOfScaledMinus(2.0 * d, n, i, n);
    assert Dot(r, n) == d;
    DotSymmetric(n, r);
    DotOfScaledMinus(2.0 * d, n, i, r);
    DotSymmetric(i, r);
    DotOfScaledMinus(2.0 * d, n, i, i);
    assert Dot(r, r) == 2.0 * d * d - (2.0 * d * d - Dot(i, i));
  }

  lemma DotSymmetric(u: Float3, v: Float3)
    ensures Dot(u, v) == Dot(v, u)
  {
  }

  /** The dot product is linear in its first argument, for the shape reflection has. */
  lemma DotOfScaledMinus(a: real, n: Float3, i: Float3, v: Float3)
    ensures Dot(Sub(Scale(a, n), i), v) == a * Dot(n, v) - Dot(i, v)
  {
    assert Sub(Scale(a, n), i) == Float3(a * n.x - i.x, a * n.y - i.y, a * n.z - i.z);
    assert (a * n.x - i.x) * v.x == a * (n.x * v.x) - i.x * v.x;
    assert (a * n.y - i.y) * v.y == a * (n.y * v.y) - i.y * v.y;
    assert (a * n.z - i.z) * v.z == a * (n.z * v.z) - i.z * v.z;
  }
}

// The shader stack: a flat array of floats addressed by offset.

module SvmStack {
  import opened Vectors

  /** `s` with `v` written into the three slots starting at `offset`, nothing else changed. */
  function Stored(s: seq<real>, offset: nat, v: Float3): (r: seq<real>)
    requires offset + 3 <= |s|
    ensures |r| == |s|
    ensures r[offset] == v.x && r[offset + 1] == v.y && r[offset + 2] == v.z
    ensures forall i :: 0 <= i < |s| && (i < offset || offset + 3 <= i) ==> r[i] == s[i]
  {
    s[offset := v.x][offset + 1 := v.y][offset + 2 := v.z]
  }

  function LoadFloat3(s: seq<real>, offset: nat): Float3
    requires offset + 3 <= |s|
  {
    Float3(s[offset], s[offset + 1], s[offset + 2])
  }

  /** `stack_store_float3`. */
  method StoreFloat3(stack: array<real>, offset: nat, v: Float3)
    requires offset + 3 <= stack.Length
    modifies stack
    ensures stack[..] == Stored(old(stack[..]), offset, v)
  {
    stack[offset] := v.x;
    stack[offset + 1] := v.y;
    stack[offset + 2] := v.z;
  }
}
