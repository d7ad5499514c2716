// The normal-map node: a colour read as a normal in tangent, object or
// world space, blended with the shading normal by a strength, and stored.

module NormalMap {
  import opened Wrappers
  import opened Vectors
  import opened Shading
  import opened SvmStack

  /** The space a normal map is authored in; the Blender spaces flip y and z. */
  datatype NormalMapSpace =
    | SpaceTangent
    | SpaceObject
    | SpaceWorld
    | SpaceBlenderObject
    | SpaceBlenderWorld

  /**
   * A normal-map node: stack offsets of the colour input, the strength input
   * and the normal output, the space, and (for tangent space) the tangent
   * and tangent-sign attributes.
   */
  datatype NormalMapNode = NormalMapNode(
    colorOffset: nat,
    strengthOffset: nat,
    normalOffset: nat,
    space: NormalMapSpace,
    tangentAttr: AttrKey,
    signAttr: AttrKey)

  /** A colour, whose channels lie in [0, 1], read as a vector whose components lie in [-1, 1]. */
  function DecodeColor(c: Float3): (n: Float3)
    ensures EncodeColor(n) == c
    ensures 0.0 <= c.x <= 1.0 ==> -1.0 <= n.x <= 1.0
    ensures 0.0 <= c.y <= 1.0 ==> -1.0 <= n.y <= 1.0
    ensures 0.0 <= c.z <= 1.0 ==> -1.0 <= n.z <= 1.0
  {
    Scale(2.0, Float3(c.x - 0.5, c.y - 0.5, c.z - 0.5))
  }

  /** How a normal is baked into a colour: the inverse of `DecodeColor`. */
  function EncodeColor(n: Float3): Float3 {
    Float3(n.x / 2.0 + 0.5, n.y / 2.0 + 0.5, n.z / 2.0 + 0.5)
  }

  /** Encoding a normal and decoding it back gives the normal. */
  lemma DecodeEncode(n: Float3)
    ensures DecodeColor(EncodeColor(n)) == n
  {
  }

  predicate IsBlenderSpace(space: NormalMapSpace) {
    space.SpaceBlenderObject? || space.SpaceBlenderWorld?
  }

  predicate IsObjectSpace(space: NormalMapSpace) {
    space.SpaceObject? || space.SpaceBlenderObject?
  }

  /** The Blender convention: y and z point the other way. */
  function BlenderFlip(v: Float3): Float3 {
    Float3(v.x, -v.y, -v.z)
  }

  /**
   * Tangent-space mapping is impossible: the shading point is on no object,
   * or the tangent, its sign or the vertex normal is not an attribute of it.
   */
  predicate TangentDataMissing(k: Kernel, sd: ShaderData, node: NormalMapNode) {
    && node.space.SpaceTangent?
    && (|| sd.obj.ObjectNone?
        || k.findAttribute(node.tangentAttr).AttrNotFound?
        || k.findAttribute(node.signAttr).AttrNotFound?
        || k.findAttribute(StdVertexNormal).AttrNotFound?)
  }

  /**
   * The decoded colour `c` taken out of the frame spanned by the tangent,
   * the bitangent `sign * (normal x tangent)` and the normal, normalised,
   * and carried into world space.
   */
  function TangentSpaceNormal(k: Kernel, c: Float3, tangent: Float3, sign: real, normal: Float3): Float3 {
    var b := Scale(sign, Cross(normal, tangent));
    k.objectNormal(k.safeNormalize(Add(Add(Scale(c.x, tangent), Scale(c.y, b)), Scale(c.z, normal))))
  }

  /**
   * The mapped world-space normal for the decoded colour `c`, before
   * orientation and strength; `None` when tangent data is missing.
   */
  function MappedNormal(k: Kernel, sd: ShaderData, node: NormalMapNode, c: Float3): (r: Option<Float3>)
    ensures r.None? <==> TangentDataMissing(k, sd, node)
  {
    if node.space.SpaceTangent? then
      if sd.obj.ObjectNone? then None
      else
        var attr := k.findAttribute(node.tangentAttr);
        var attrSign := k.findAttribute(node.signAttr);
        var attrNormal := k.findAttribute(StdVertexNormal);
        if attr.AttrNotFound? || attrSign.AttrNotFound? || attrNormal.AttrNotFound? then None
        else
          var normal :=
            if sd.smoothNormal then k.attributeFloat3(attrNormal)
            else k.objectInverseNormal(if sd.backfacing then Neg(sd.Ng) else sd.Ng);
          Some(TangentSpaceNormal(k, c, k.attributeFloat3(attr), k.attributeFloat(attrSign), normal))
    else
      var v := if IsBlenderSpace(node.space) then BlenderFlip(c) else c;
      if IsObjectSpace(node.space) then Some(k.objectNormal(v)) else Some(k.safeNormalize(v))
  }

  function Max0(s: real): real {
    if s > 0.0 then s else 0.0
  }

  /**
   * The mapped normal `n` turned for a back face, blended towards the
   * shading normal unless the strength is exactly 1 (a negative strength
   * counting as 0), made a valid reflection normal, and replaced by the
   * shading normal if it came out zero.
   */
  function Finish(k: Kernel, sd: ShaderData, n: Float3, strength: real): (r: Float3)
    ensures IsZero(r) ==> r == sd.N
  {
    var oriented := if sd.backfacing then Neg(n) else n;
    var blended :=
      if strength != 1.0 then k.safeNormalize(Add(sd.N, Scale(Max0(strength), Sub(oriented, sd.N))))
      else oriented;
    var valid := k.ensureValidReflection(sd.Ng, sd.I, blended);
    if IsZero(valid) then sd.N else valid
  }

  /**
   * The normal `svm_node_normal_map` stores for colour input `color` and
   * strength input `strength`: zero when tangent data is missing; otherwise
   * zero only if the shading normal itself is zero.
   */
  function NormalMapResult(k: Kernel, sd: ShaderData, node: NormalMapNode, color: Float3, strength: real): (r: Float3)
    ensures TangentDataMissing(k, sd, node) ==> r == Zero
    ensures !TangentDataMissing(k, sd, node) && IsZero(r) ==> r == sd.N
  {
    match MappedNormal(k, sd, node, DecodeColor(color))
    case None => Zero
    case Some(n) => Finish(k, sd, n, strength)
  }

  /** `svm_node_normal_map`, with its early returns; only the three output slots change. */
  method NodeNormalMap(k: Kernel, sd: ShaderData, stack: array<real>, node: NormalMapNode)
    requires node.colorOffset + 3 <= stack.Length
    requires node.strengthOffset < stack.Length
    requires node.normalOffset + 3 <= stack.Length
    modifies stack
    ensures stack[..] == Stored(old(stack[..]), node.normalOffset,
      NormalMapResult(k, sd, node, LoadFloat3(old(stack[..]), node.colorOffset), old(stack[node.strengthOffset])))
  {
    ghost var before := stack[..];
    var color := Float3(stack[node.colorOffset], stack[node.colorOffset + 1], stack[node.colorOffset + 2]);
    assert color == LoadFloat3(before, node.colorOffset);
    color := Scale(2.0, Float3(color.x - 0.5, color.y - 0.5, color.z - 0.5));
    ghost var decoded := color;
    ghost var strength0 := before[node.strengthOffset];
    var isBackfacing := sd.backfacing;
    var n: Float3;

    if node.space.SpaceTangent? {
      if sd.obj.ObjectNone? {
        StoreFloat3(stack, node.normalOffset, Zero);
        return;
      }
      var attr := k.findAttribute(node.tangentAttr);
      var attrSign := k.findAttribute(node.signAttr);
      var attrNormal := k.findAttribute(StdVertexNormal);
      if attr.AttrNotFound? || attrSign.AttrNotFound? || attrNormal.AttrNotFound? {
        StoreFloat3(stack, node.normalOffset, Zero);
        return;
      }
      var tangent := k.attributeFloat3(attr);
      var sign := k.attributeFloat(attrSign);
      var normal: Float3;
      if sd.smoothNormal {
        normal := k.attributeFloat3(attrNormal);
      } else {
        normal := sd.Ng;
        if isBackfacing {
          normal := Neg(normal);
        }
        normal := k.objectInverseNormal(normal);
      }
      var b := Scale(sign, Cross(normal, tangent));
      n := k.safeNormalize(Add(Add(Scale(color.x, tangent), Scale(color.y, b)), Scale(color.z, normal)));
      n := k.objectNormal(n);
      assert MappedNormal(k, sd, node, decoded) == Some(n);
    } else {
      if node.space.SpaceBlenderObject? || node.space.SpaceBlenderWorld? {
        color := color.(y := -color.y, z := -color.z);
      }
      n := color;
      if node.space.SpaceObject? || node.space.SpaceBlenderObject? {
        n := k.objectNormal(n);
      } else {
        n := k.safeNormalize(n);
      }
      assert MappedNormal(k, sd, node, decoded) == Some(n);
    }
    ghost var mapped := n;

    if isBackfacing {
      n := Neg(n);
    }

    var strength := stack[node.strengthOffset];
    if strength != 1.0 {
      strength := if strength > 0.0 then strength else 0.0;
      n := k.safeNormalize(Add(sd.N, Scale(strength, Sub(n, sd.N))));
    }

    n := k.ensureValidReflection(sd.Ng, sd.I, n);
    if IsZero(n) {
      n := sd.N;
    }
    assert n == Finish(k, sd, mapped, strength0);
    assert n == NormalMapResult(k, sd, node, LoadFloat3(before, node.colorOffset), strength0);
    StoreFloat3(stack, node.normalOffset, n);
  }

  // ---- properties ----

  /** The colour a Blender-convention map needs to give the same result as a plain one: y and z mirrored about 1/2. */
  function BlenderColor(c: Float3): Float3 {
    Float3(c.x, 1.0 - c.y, 1.0 - c.z)
  }

  /**
   * A Blender-object (Blender-world) map behaves as an object (world) map
   * whose colour has its y and z channels mirrored about 1/2.
   */
  lemma BlenderSpacesMirrorColor(k: Kernel, sd: ShaderData, node: NormalMapNode, color: Float3, strength: real)
    requires IsBlenderSpace(node.space)
    ensures var plain := if node.space.SpaceBlenderObject? then SpaceObject else SpaceWorld;
      NormalMapResult(k, sd, node, color, strength)
        == NormalMapResult(k, sd, node.(space := plain), BlenderColor(color), strength)
  {
    assert DecodeColor(BlenderColor(color)) == BlenderFlip(DecodeColor(color));
  }

  /**
   * On a backfacing polygon the mapped normal is inverted: finishing it is
   * finishing its negation on the same polygon seen from the front.
   */
  lemma BackfacingInvertsNormal(k: Kernel, sd: ShaderData, n: Float3, strength: real)
    requires sd.backfacing
    ensures Finish(k, sd, n, strength) == Finish(k, sd.(backfacing := false), Neg(n), strength)
  {
  }

  /** A negative strength acts as strength 0. */
  lemma NegativeStrengthActsAsZero(k: Kernel, sd: ShaderData, node: NormalMapNode, color: Float3, strength: real)
    requires strength < 0.0
    ensures NormalMapResult(k, sd, node, color, strength) == NormalMapResult(k, sd, node, color, 0.0)
  {
  }

  /**
   * At strength 0 or below the map has no effect: the stored normal is the
   * same whatever the colour and whatever the mapped normal.
   */
  lemma NonPositiveStrengthIgnoresMap(k: Kernel, sd: ShaderData, n1: Float3, n2: Float3, strength: real)
    requires strength <= 0.0
    ensures Finish(k, sd, n1, strength) == Finish(k, sd, n2, strength)
  {
    var o1 := if sd.backfacing then Neg(n1) else n1;
    var o2 := if sd.backfacing then Neg(n2) else n2;
    assert Add(sd.N, Scale(Max0(strength), Sub(o1, sd.N))) == sd.N;
    assert Add(sd.N, Scale(Max0(strength), Sub(o2, sd.N))) == sd.N;
  }

  /**
   * At strength exactly 1 no blending takes place: the result does not
   * depend on the normalisation the blend would use.
   */
  lemma UnitStrengthSkipsBlend(k: Kernel, sd: ShaderData, n: Float3, f: Float3 -> Float3)
    ensures Finish(k, sd, n, 1.0) == Finish(k.(safeNormalize := f), sd, n, 1.0)
  {
  }
}
