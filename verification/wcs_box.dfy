// `wcs_box_coord`: the WCS box texture mapping. A face of the unit box is
// chosen from the dominant axis of the shading normal (of the point when the
// normal is zero), and the point is rearranged into that face's frame.

module WcsBox {
  import opened Wrappers
  import opened Vectors
  import opened Shading

  function Abs(r: real): real {
    if r < 0.0 then -r else r
  }

  /** Component `axis` of `v`: 0 is x, 1 is y, 2 is z. */
  function Component(v: Float3, axis: nat): real
    requires axis < 3
  {
    if axis == 0 then v.x else if axis == 1 then v.y else v.z
  }

  /**
   * The axis along which `v` is largest in magnitude. Between x and y, x
   * wins ties; z wins only when strictly larger than the x/y winner.
   */
  function DominantAxis(v: Float3): (axis: nat)
    ensures axis < 3
    ensures axis == 0 <==> Abs(v.x) >= Abs(v.y) && Abs(v.x) >= Abs(v.z)
    ensures axis == 1 <==> Abs(v.x) < Abs(v.y) && Abs(v.y) >= Abs(v.z)
    ensures Abs(Component(v, axis)) >= Abs(v.x)
    ensures Abs(Component(v, axis)) >= Abs(v.y)
    ensures Abs(Component(v, axis)) >= Abs(v.z)
  {
    var side := if Abs(v.x) >= Abs(v.y) then 0 else 1;
    if Abs(v.z) > Abs(if side == 1 then v.y else v.x) then 2 else side
  }

  /** The dominant component is zero exactly for the zero vector. */
  lemma DominantZeroIffZero(v: Float3)
    ensures Component(v, DominantAxis(v)) == 0.0 <==> IsZero(v)
  {
  }

  /**
   * The box face `v` points at: 1/2 for -x/+x, 3/4 for -y/+y, 5/6 for
   * -z/+z, read from the sign of the dominant component (zero counts as +).
   */
  function SignedFace(v: Float3): (face: int)
    ensures 1 <= face <= 6
    ensures (face - 1) / 2 == DominantAxis(v)
    ensures face % 2 == 1 <==> Component(v, DominantAxis(v)) < 0.0
  {
    var axis := DominantAxis(v);
    if Component(v, axis) < 0.0 then 2 * axis + 1 else 2 * axis + 2
  }

  /** The face chosen for point `d` with shading normal `n`: the normal decides unless it is zero. */
  function BoxFace(d: Float3, n: Float3): (face: int)
    ensures 1 <= face <= 6
  {
    if IsZero(n) then SignedFace(d) else SignedFace(n)
  }

  /**
   * `d` rearranged into the frame of `face`: the first two components span
   * the face, the third is the coordinate along the face's axis. Face 6 and
   * anything outside 1..5 leave `d` as it is.
   */
  function BoxProject(face: int, d: Float3): Float3 {
    if face == 1 then Float3(-d.y, d.z, d.x)
    else if face == 2 then Float3(d.y, d.z, d.x)
    else if face == 3 then Float3(d.x, d.z, d.y)
    else if face == 4 then Float3(-d.x, d.z, d.y)
    else if face == 5 then Float3(-d.x, d.y, d.z)
    else d
  }

  /** The whole mapping: optional object frame, face choice, rearrangement. */
  function BoxCoord(k: Kernel, sd: ShaderData, data: Float3): Float3 {
    var d := OcsFrame(k, sd, data);
    BoxProject(BoxFace(d, sd.N), d)
  }

  /** `wcs_box_coord`, with its face selection made step by step. */
  method WcsBoxCoord(k: Kernel, sd: ShaderData, data: Float3) returns (r: Float3)
    ensures r == BoxCoord(k, sd, data)
  {
    var n := sd.N;
    var d := data;
    if sd.obj.ObjectIndex? {
      match k.objectOcsFrame(sd.obj.index)
      case Some(tfm) => d := TransformPoint(tfm, d);
      case None =>
    }

    var side0 := 0;
    var dx := d.x;
    var dy := d.y;

    // the face closest to the point
    var side1 := if Abs(dx) >= Abs(dy) then 0 else 1;
    var rr := if side1 != 0 then dy else dx;
    if Abs(d.z) > Abs(rr) {
      side1 := 2;
    }
    // the sign is read from the dominant component; see PointFaceAsWritten
    var t1 := if side1 == 0 then dx else if side1 == 1 then dy else d.z;
    if t1 < 0.0 {
      side0 := 2 * side1 + 1;
    } else {
      side0 := 2 * side1 + 2;
    }
    assert side0 == SignedFace(d);

    // the normal overrides the point when its dominant component is non-zero
    side1 := if Abs(n.x) >= Abs(n.y) then 0 else 1;
    rr := if side1 != 0 then n.y else n.x;
    if Abs(n.z) > Abs(rr) {
      side1 := 2;
    }
    if side1 == 0 {
      t1 := n.x;
    } else if side1 == 1 {
      t1 := n.y;
    } else {
      t1 := n.z;
    }
    assert side1 == DominantAxis(n) && t1 == Component(n, side1);
    DominantZeroIffZero(n);
    if 0.0 != t1 {
      if t1 < 0.0 {
        side0 := 2 * side1 + 1;
      } else if t1 > 0.0 {
        side0 := 2 * side1 + 2;
      }
    }
    assert side0 == BoxFace(d, n);

    var v := Zero;
    if side0 == 1 {
      v := Float3(-d.y, d.z, d.x);
    } else if side0 == 2 {
      v := Float3(d.y, d.z, d.x);
    } else if side0 == 3 {
      v := Float3(d.x, d.z, d.y);
    } else if side0 == 4 {
      v := Float3(-d.x, d.z, d.y);
    } else if side0 == 5 {
      v := Float3(-d.x, d.y, d.z);
    } else {
      v := Float3(d.x, d.y, d.z);
    }
    r := v;
  }

  /** A non-zero normal alone decides the face: the point has no say. */
  lemma NormalDecidesFace(d1: Float3, d2: Float3, n: Float3)
    requires !IsZero(n)
    ensures BoxFace(d1, n) == BoxFace(d2, n) == SignedFace(n)
  {
  }

  /** The point's own face survives only when the normal is the zero vector. */
  lemma PointFaceOnlyForZeroNormal(d: Float3, n: Float3)
    requires BoxFace(d, n) != SignedFace(n)
    ensures IsZero(n) && BoxFace(d, n) == SignedFace(d)
  {
  }

  /**
   * A point on the edge between the x and y faces (a tie, which the point
   * test gives to x either way) with a normal along +x lands on face 2.
   */
  lemma EdgeResolvedByNormal(d: Float3, a: real)
    requires Abs(d.x) == Abs(d.y) > Abs(d.z) && a > 0.0
    ensures BoxFace(d, Float3(a, 0.0, 0.0)) == 2
    ensures BoxFace(d, Float3(0.0, a, 0.0)) == 4
  {
  }

  /**
   * Each face's rearrangement is a signed permutation: every output
   * component is plus or minus one input component, the length is kept,
   * the third output is the coordinate along the face's axis, and face 6
   * is the identity.
   */
  lemma BoxProjectSignedPermutation(face: int, d: Float3)
    requires 1 <= face <= 6
    ensures var v := BoxProject(face, d);
      && Dot(v, v) == Dot(d, d)
      && v.z == Component(d, (face - 1) / 2)
      && (Abs(v.x) == Abs(d.x) || Abs(v.x) == Abs(d.y))
      && (Abs(v.y) == Abs(d.y) || Abs(v.y) == Abs(d.z))
      && (face == 6 ==> v == d)
  {
  }

  // ---- the point-face sign as the source reads it ----

  /**
   * The point's face as written at lines 36-45: when z dominates, the sign
   * is still read from y, because `side1 ? dy : dx` has only two arms.
   */
  function PointFaceAsWritten(d: Float3): (face: int)
    ensures 1 <= face <= 6
    ensures DominantAxis(d) != 2 ==> face == SignedFace(d)
  {
    var axis := DominantAxis(d);
    var t1 := if axis != 0 then d.y else d.x;
    if t1 < 0.0 then 2 * axis + 1 else 2 * axis + 2
  }

  /** The face choice with the as-written point face. */
  function BoxFaceAsWritten(d: Float3, n: Float3): (face: int)
    ensures 1 <= face <= 6
  {
    if IsZero(n) then PointFaceAsWritten(d) else SignedFace(n)
  }

  /**
   * The two differ only for a zero normal: a point far below the box
   * (dominant -z) with a small positive y is sent to the top face 6
   * instead of the bottom face 5, and so is stored unrearranged where the
   * bottom face would have mirrored its x.
   */
  lemma PointFaceAsWrittenMisreadsZ()
    ensures var d := Float3(0.1, 0.25, -2.0);
      && PointFaceAsWritten(d) == 6
      && SignedFace(d) == 5
      && BoxProject(BoxFaceAsWritten(d, Zero), d) == Float3(0.1, 0.25, -2.0)
      && BoxProject(BoxFace(d, Zero), d) == Float3(-0.1, 0.25, -2.0)
  {
  }

  /** The whole mapping with the as-written point face. */
  function BoxCoordAsWritten(k: Kernel, sd: ShaderData, data: Float3): Float3 {
    var d := OcsFrame(k, sd, data);
    BoxProject(BoxFaceAsWritten(d, sd.N), d)
  }

  /**
   * Exactly where the as-written mapping stores something else: the normal
   * is zero, z dominates the point, y and z have opposite signs, and x is
   * non-zero (faces 5 and 6 differ only in the sign of x).
   */
  lemma BoxCoordAsWrittenDiffers(k: Kernel, sd: ShaderData, data: Float3)
    ensures var d := OcsFrame(k, sd, data);
      (BoxCoordAsWritten(k, sd, data) != BoxCoord(k, sd, data)) <==>
      (IsZero(sd.N) && DominantAxis(d) == 2 && (d.y < 0.0 <==> 0.0 <= d.z) && d.x != 0.0)
  {
    var d := OcsFrame(k, sd, data);
    if IsZero(sd.N) && DominantAxis(d) == 2 {
      assert SignedFace(d) == if d.z < 0.0 then 5 else 6;
      assert PointFaceAsWritten(d) == if d.y < 0.0 then 5 else 6;
    }
  }

  /** With a non-zero normal the as-written and corrected choices agree. */
  lemma AsWrittenAgreesWithNormal(d: Float3, n: Float3)
    requires !IsZero(n)
    ensures BoxFaceAsWritten(d, n) == BoxFace(d, n)
  {
  }
}
