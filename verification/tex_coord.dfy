// The texture-coordinate node and its two bump variants, which evaluate
// the node at the shading point moved by one screen-space differential.

module TexCoord {
  import opened Vectors
  import opened Shading
  import opened SvmStack
  import opened WcsBox

  /** The coordinate a texture-coordinate node outputs. */
  datatype TexCoordType =
    | TexCoObject
    | TexCoWcsBox
    | TexCoNormal
    | TexCoCamera
    | TexCoWindow
    | TexCoReflection
    | TexCoDupliGenerated
    | TexCoDupliUv
    | TexCoVolumeGenerated
    | TexCoEnvSpherical
    | TexCoEnvEmap
    | TexCoEnvBox
    | TexCoEnvLightProbe
    | TexCoEnvCubemap
    | TexCoEnvCubemapVerticalCross
    | TexCoEnvCubemapHorizontalCross
    | TexCoEnvHemi
  {
    /** The coordinates read from the reflected incoming ray. */
    predicate IsEnvironment() {
      || TexCoEnvSpherical? || TexCoEnvEmap? || TexCoEnvBox? || TexCoEnvLightProbe?
      || TexCoEnvCubemap? || TexCoEnvCubemapVerticalCross? || TexCoEnvCubemapHorizontalCross?
      || TexCoEnvHemi?
    }
  }

  /**
   * A texture-coordinate node: its coordinate type, the stack offset of its
   * output, and whether an inline transform follows it in the node stream.
   */
  datatype TexCoordNode = TexCoordNode(texcoType: TexCoordType, outOffset: nat, inlineTransform: bool)

  /** Whether evaluating `node` consumes the three node words after it. */
  predicate ReadsTransform(node: TexCoordNode) {
    (node.texcoType.TexCoObject? || node.texcoType.TexCoWcsBox?) && node.inlineTransform
  }

  /** Where the node stream continues after `node`. */
  function NextOffset(node: TexCoordNode, offset: nat): nat {
    if ReadsTransform(node) then offset + 3 else offset
  }

  /** The three node words at `offset`, read as the rows of a transform. */
  function NodeTransform(nodes: seq<Float4>, offset: nat): Transform
    requires offset + 3 <= |nodes|
  {
    Transform(nodes[offset], nodes[offset + 1], nodes[offset + 2])
  }

  predicate ValidNodeStream(node: TexCoordNode, nodes: seq<Float4>, offset: nat) {
    ReadsTransform(node) ==> offset + 3 <= |nodes|
  }

  // ---- the cases, for a given position ----

  /** Object coordinates of `pos`: through the object frame, then the object's inverse or the inline transform. */
  function ObjectCoord(k: Kernel, sd: ShaderData, pos: Float3, node: TexCoordNode, nodes: seq<Float4>, offset: nat): Float3
    requires ValidNodeStream(node, nodes, offset) && node.texcoType.TexCoObject?
  {
    var data := OcsFrame(k, sd, pos);
    if !node.inlineTransform then
      if sd.obj.ObjectIndex? then k.objectInversePosition(data) else data
    else TransformPoint(NodeTransform(nodes, offset), data)
  }

  /** What the WCS box case hands to the box mapping. */
  function WcsBoxInput(k: Kernel, sd: ShaderData, pos: Float3, node: TexCoordNode, nodes: seq<Float4>, offset: nat): Float3
    requires ValidNodeStream(node, nodes, offset) && node.texcoType.TexCoWcsBox?
  {
    if !node.inlineTransform then
      if sd.obj.ObjectIndex? then k.objectInversePosition(pos) else pos
    else TransformDirection(NodeTransform(nodes, offset), pos)
  }

  /** Camera coordinates; a point not on an object is first moved by the camera position. */
  function CameraCoord(k: Kernel, sd: ShaderData, pos: Float3): Float3 {
    if sd.obj.ObjectIndex? then TransformDirection(k.worldToCamera, pos)
    else TransformDirection(k.worldToCamera, Add(pos, k.cameraPosition))
  }

  /**
   * Window coordinates: a camera ray off any object seen by an orthographic
   * camera uses the ray origin, everything else the shading point; the depth
   * is dropped.
   */
  function WindowCoord(k: Kernel, sd: ShaderData, cameraRay: bool, pos: Float3, rayPos: Float3): (w: Float3)
    ensures w.z == 0.0
  {
    var ndc := if cameraRay && sd.obj.ObjectNone? && k.orthographicCamera
      then k.cameraWorldToNdc(rayPos) else k.cameraWorldToNdc(pos);
    ndc.(z := 0.0)
  }

  /**
   * A camera ray off any object seen by an orthographic camera takes its
   * window coordinate from the ray origin, whatever the shading point;
   * every other case takes it from the shading point, whatever the ray origin.
   */
  lemma WindowOrthoCameraUsesRayOrigin(k: Kernel, sd: ShaderData, cameraRay: bool, p1: Float3, p2: Float3, r1: Float3, r2: Float3)
    ensures sd.obj.ObjectNone? && k.orthographicCamera ==>
      WindowCoord(k, sd, true, p1, r1) == WindowCoord(k, sd, true, p2, r1)
    ensures !(cameraRay && sd.obj.ObjectNone? && k.orthographicCamera) ==>
      WindowCoord(k, sd, cameraRay, p1, r1) == WindowCoord(k, sd, cameraRay, p1, r2)
  {
  }

  /** The incoming direction mirrored about the normal on an object, unchanged off any object. */
  function ReflectionCoord(sd: ShaderData): Float3 {
    if sd.obj.ObjectIndex? then Reflect(sd.N, sd.I) else sd.I
  }

  /**
   * The environment modes look up the normalized reflection coordinate on an
   * object; about a unit normal that ray keeps the incoming ray's component
   * along the normal and its length, and mirroring it again gives the
   * incoming ray back.
   */
  lemma ReflectedIncomingRayMirrorsIncoming(k: Kernel, sd: ShaderData)
    ensures sd.obj.ObjectIndex? ==> ReflectedIncomingRay(k, sd) == k.normalize(ReflectionCoord(sd))
    ensures Dot(sd.N, sd.N) == 1.0 ==>
      var r := Reflect(sd.N, sd.I);
      && ReflectedIncomingRay(k, sd) == k.normalize(r)
      && Dot(r, sd.N) == Dot(sd.I, sd.N)
      && Dot(r, r) == Dot(sd.I, sd.I)
      && Reflect(sd.N, r) == sd.I
  {
    if Dot(sd.N, sd.N) == 1.0 {
      ReflectAboutUnitNormal(sd.N, sd.I);
    }
  }

  function VolumeCoord(k: Kernel, sd: ShaderData, pos: Float3): Float3 {
    if k.features.volume && sd.obj.ObjectIndex? then k.volumeNormalizedPosition(pos) else pos
  }

  /** The axis swap applied before the spherical and hemispherical projections. */
  function SphericalFrame(r: Float3): Float3 {
    Float3(r.y, -r.z, -r.x)
  }

  // ---- the three nodes ----

  /** The coordinate `svm_node_tex_coord` stores, for a node of any type. */
  function TexCoordData(k: Kernel, sd: ShaderData, cameraRay: bool, node: TexCoordNode, nodes: seq<Float4>, offset: nat): (data: Float3)
    requires ValidNodeStream(node, nodes, offset)
    ensures node.texcoType.TexCoWindow? ==> data.z == 0.0
    ensures node.texcoType.TexCoReflection? && sd.obj.ObjectNone? ==> data == sd.I
  {
    match node.texcoType
    case TexCoObject => ObjectCoord(k, sd, sd.P, node, nodes, offset)
    case TexCoWcsBox => BoxCoord(k, sd, WcsBoxInput(k, sd, sd.P, node, nodes, offset))
    case TexCoNormal => k.objectInverseNormal(sd.N)
    case TexCoCamera => CameraCoord(k, sd, sd.P)
    case TexCoWindow => WindowCoord(k, sd, cameraRay, sd.P, sd.rayP)
    case TexCoReflection => ReflectionCoord(sd)
    case TexCoDupliGenerated => k.dupliGenerated(sd.obj)
    case TexCoDupliUv => k.dupliUv(sd.obj)
    case TexCoVolumeGenerated => VolumeCoord(k, sd, sd.P)
    case TexCoEnvSpherical => k.envSpherical(SphericalFrame(ReflectedIncomingRay(k, sd)))
    case TexCoEnvEmap => k.envEmapAct(ReflectedIncomingRay(k, sd))
    case TexCoEnvBox => k.envBox(ReflectedIncomingRay(k, sd))
    case TexCoEnvLightProbe => k.envLightProbe(ReflectedIncomingRay(k, sd))
    case TexCoEnvCubemap => k.envCubemap(ReflectedIncomingRay(k, sd))
    case TexCoEnvCubemapVerticalCross => k.envCubemapVerticalCross(ReflectedIncomingRay(k, sd))
    case TexCoEnvCubemapHorizontalCross => k.envCubemapHorizontalCross(ReflectedIncomingRay(k, sd))
    case TexCoEnvHemi => k.envHemispherical(SphericalFrame(ReflectedIncomingRay(k, sd)))
  }

  /**
   * What the x bump variant may be given: with ray differentials compiled
   * in it has no environment cases, so those leave its output undefined.
   */
  predicate BumpDxHandles(k: Kernel, t: TexCoordType) {
    k.features.rayDifferentials ==> !t.IsEnvironment()
  }

  /** What the y bump variant may be given: it has every case but the environment box. */
  predicate BumpDyHandles(k: Kernel, t: TexCoordType) {
    k.features.rayDifferentials ==> !t.TexCoEnvBox?
  }

  /** The coordinate `svm_node_tex_coord_bump_dx` stores. */
  function BumpDxData(k: Kernel, sd: ShaderData, cameraRay: bool, node: TexCoordNode, nodes: seq<Float4>, offset: nat): (data: Float3)
    requires ValidNodeStream(node, nodes, offset) && BumpDxHandles(k, node.texcoType)
    ensures node.texcoType.TexCoWindow? ==> data.z == 0.0
    ensures node.texcoType.TexCoReflection? && sd.obj.ObjectNone? ==> data == sd.I
  {
    if !k.features.rayDifferentials then TexCoordData(k, sd, cameraRay, node, nodes, offset)
    else
      var pos := Add(sd.P, sd.dP.dx);
      match node.texcoType
      case TexCoObject => ObjectCoord(k, sd, pos, node, nodes, offset)
      case TexCoWcsBox => BoxCoord(k, sd, WcsBoxInput(k, sd, pos, node, nodes, offset))
      case TexCoNormal => k.objectInverseNormal(sd.N)
      case TexCoCamera => CameraCoord(k, sd, pos)
      case TexCoWindow => WindowCoord(k, sd, cameraRay, pos, Add(sd.rayP, sd.rayDP.dx))
      case TexCoReflection => ReflectionCoord(sd)
      case TexCoDupliGenerated => k.dupliGenerated(sd.obj)
      case TexCoDupliUv => k.dupliUv(sd.obj)
      case TexCoVolumeGenerated => VolumeCoord(k, sd, pos)
  }

  /** The coordinate `svm_node_tex_coord_bump_dy` stores. */
  function BumpDyData(k: Kernel, sd: ShaderData, cameraRay: bool, node: TexCoordNode, nodes: seq<Float4>, offset: nat): (data: Float3)
    requires ValidNodeStream(node, nodes, offset) && BumpDyHandles(k, node.texcoType)
    ensures node.texcoType.TexCoWindow? ==> data.z == 0.0
    ensures node.texcoType.TexCoReflection? && sd.obj.ObjectNone? ==> data == sd.I
  {
    if !k.features.rayDifferentials then TexCoordData(k, sd, cameraRay, node, nodes, offset)
    else
      var pos := Add(sd.P, sd.dP.dy);
      match node.texcoType
      case TexCoObject => ObjectCoord(k, sd, pos, node, nodes, offset)
      case TexCoWcsBox => BoxCoord(k, sd, WcsBoxInput(k, sd, pos, node, nodes, offset))
      case TexCoNormal => k.objectInverseNormal(sd.N)
      case TexCoCamera => CameraCoord(k, sd, pos)
      case TexCoWindow => WindowCoord(k, sd, cameraRay, pos, Add(sd.rayP, sd.rayDP.dy))
      case TexCoReflection => ReflectionCoord(sd)
      case TexCoDupliGenerated => k.dupliGenerated(sd.obj)
      case TexCoDupliUv => k.dupliUv(sd.obj)
      case TexCoVolumeGenerated => VolumeCoord(k, sd, pos)
      case TexCoEnvSpherical => k.envSpherical(SphericalFrame(ReflectedIncomingRay(k, sd)))
      case TexCoEnvEmap =>
        var r := ReflectedIncomingRay(k, sd);
        k.envWorldEmap(TransformDirection(k.worldToCamera, Float3(-r.z, r.x, -r.y)))
      case TexCoEnvLightProbe => k.envLightProbe(ReflectedIncomingRay(k, sd))
      case TexCoEnvCubemap => k.envCubemap(ReflectedIncomingRay(k, sd))
      case TexCoEnvCubemapVerticalCross => k.envCubemapVerticalCross(ReflectedIncomingRay(k, sd))
      case TexCoEnvCubemapHorizontalCross => k.envCubemapHorizontalCross(ReflectedIncomingRay(k, sd))
      case TexCoEnvHemi => k.envHemispherical(SphericalFrame(ReflectedIncomingRay(k, sd)))
  }

  /**
   * `svm_node_tex_coord`: computes the coordinate, consuming the inline
   * transform from the node stream when there is one, and stores it in the
   * three stack slots at the node's output offset; nothing else changes.
   */
  method NodeTexCoord(k: Kernel, sd: ShaderData, cameraRay: bool, stack: array<real>, node: TexCoordNode,
                      nodes: seq<Float4>, offset: nat) returns (next: nat)
    requires node.outOffset + 3 <= stack.Length
    requires ValidNodeStream(node, nodes, offset)
    modifies stack
    ensures next == NextOffset(node, offset)
    ensures next == offset || (ReadsTransform(node) && next == offset + 3 <= |nodes|)
    ensures stack[..] == Stored(old(stack[..]), node.outOffset, TexCoordData(k, sd, cameraRay, node, nodes, offset))
  {
    next := offset;
    var data: Float3;
    match node.texcoType {
      case TexCoObject =>
        data := OcsFrame(k, sd, sd.P);
        if !node.inlineTransform {
          if sd.obj.ObjectIndex? {
            data := k.objectInversePosition(data);
          }
        } else {
          var tfm := Transform(nodes[next], nodes[next + 1], nodes[next + 2]);
          next := next + 3;
          data := TransformPoint(tfm, data);
        }
      case TexCoWcsBox =>
        data := sd.P;
        if !node.inlineTransform {
          if sd.obj.ObjectIndex? {
            data := k.objectInversePosition(data);
          }
        } else {
          var tfm := Transform(nodes[next], nodes[next + 1], nodes[next + 2]);
          next := next + 3;
          data := TransformDirection(tfm, data);
        }
        data := WcsBoxCoord(k, sd, data);
      case _ =>
        data := TexCoordData(k, sd, cameraRay, node, nodes, offset);
    }
    StoreFloat3(stack, node.outOffset, data);
  }

  /** `svm_node_tex_coord_bump_dx`: the node at the shading point moved by the x differential. */
  method NodeTexCoordBumpDx(k: Kernel, sd: ShaderData, cameraRay: bool, stack: array<real>, node: TexCoordNode,
                            nodes: seq<Float4>, offset: nat) returns (next: nat)
    requires node.outOffset + 3 <= stack.Length
    requires ValidNodeStream(node, nodes, offset) && BumpDxHandles(k, node.texcoType)
    modifies stack
    ensures next == NextOffset(node, offset)
    ensures next == offset || (ReadsTransform(node) && next == offset + 3 <= |nodes|)
    ensures stack[..] == Stored(old(stack[..]), node.outOffset, BumpDxData(k, sd, cameraRay, node, nodes, offset))
  {
    if !k.features.rayDifferentials {
      next := NodeTexCoord(k, sd, cameraRay, stack, node, nodes, offset);
      return;
    }
    next := offset;
    var data: Float3;
    match node.texcoType {
      case TexCoObject =>
        data := OcsFrame(k, sd, Add(sd.P, sd.dP.dx));
        if !node.inlineTransform {
          if sd.obj.ObjectIndex? {
            data := k.objectInversePosition(data);
          }
        } else {
          var tfm := Transform(nodes[next], nodes[next + 1], nodes[next + 2]);
          next := next + 3;
          data := TransformPoint(tfm, data);
        }
      case TexCoWcsBox =>
        data := Add(sd.P, sd.dP.dx);
        if !node.inlineTransform {
          if sd.obj.ObjectIndex? {
            data := k.objectInversePosition(data);
          }
        } else {
          var tfm := Transform(nodes[next], nodes[next + 1], nodes[next + 2]);
          next := next + 3;
          data := TransformDirection(tfm, data);
        }
        data := WcsBoxCoord(k, sd, data);
      case _ =>
        data := BumpDxData(k, sd, cameraRay, node, nodes, offset);
    }
    StoreFloat3(stack, node.outOffset, data);
  }

  /** `svm_node_tex_coord_bump_dy`: the node at the shading point moved by the y differential. */
  method NodeTexCoordBumpDy(k: Kernel, sd: ShaderData, cameraRay: bool, stack: array<real>, node: TexCoordNode,
                            nodes: seq<Float4>, offset: nat) returns (next: nat)
    requires node.outOffset + 3 <= stack.Length
    requires ValidNodeStream(node, nodes, offset) && BumpDyHandles(k, node.texcoType)
    modifies stack
    ensures next == NextOffset(node, offset)
    ensures next == offset || (ReadsTransform(node) && next == offset + 3 <= |nodes|)
    ensures stack[..] == Stored(old(stack[..]), node.outOffset, BumpDyData(k, sd, cameraRay, node, nodes, offset))
  {
    if !k.features.rayDifferentials {
      next := NodeTexCoord(k, sd, cameraRay, stack, node, nodes, offset);
      return;
    }
    next := offset;
    var data: Float3;
    match node.texcoType {
      case TexCoObject =>
        data := OcsFrame(k, sd, Add(sd.P, sd.dP.dy));
        if !node.inlineTransform {
          if sd.obj.ObjectIndex? {
            data := k.objectInversePosition(data);
          }
        } else {
          var tfm := Transform(nodes[next], nodes[next + 1], nodes[next + 2]);
          next := next + 3;
          data := TransformPoint(tfm, data);
        }
      case TexCoWcsBox =>
        data := Add(sd.P, sd.dP.dy);
        if !node.inlineTransform {
          if sd.obj.ObjectIndex? {
            data := k.objectInversePosition(data);
          }
        } else {
          var tfm := Transform(nodes[next], nodes[next + 1], nodes[next + 2]);
          next := next + 3;
          data := TransformDirection(tfm, data);
        }
        data := WcsBoxCoord(k, sd, data);
      case _ =>
        data := BumpDyData(k, sd, cameraRay, node, nodes, offset);
    }
    StoreFloat3(stack, node.outOffset, data);
  }

  // ---- how the variants relate ----

  /**
   * Every case the x variant has is the base node evaluated at the shading
   * point moved by `dP.dx`, with the ray origin moved by `ray_dP.dx`.
   */
  lemma BumpDxIsShiftedBase(k: Kernel, sd: ShaderData, cameraRay: bool, node: TexCoordNode, nodes: seq<Float4>, offset: nat)
    requires ValidNodeStream(node, nodes, offset)
    requires k.features.rayDifferentials && !node.texcoType.IsEnvironment()
    ensures BumpDxData(k, sd, cameraRay, node, nodes, offset)
         == TexCoordData(k, Shifted(sd, sd.dP.dx, sd.rayDP.dx), cameraRay, node, nodes, offset)
  {
    var s := Shifted(sd, sd.dP.dx, sd.rayDP.dx);
    assert s.N == sd.N && s.I == sd.I && s.obj == sd.obj;
  }

  /** Every non-environment case of the y variant is the base node at the point moved by `dP.dy`. */
  lemma BumpDyIsShiftedBase(k: Kernel, sd: ShaderData, cameraRay: bool, node: TexCoordNode, nodes: seq<Float4>, offset: nat)
    requires ValidNodeStream(node, nodes, offset)
    requires k.features.rayDifferentials && !node.texcoType.IsEnvironment()
    ensures BumpDyData(k, sd, cameraRay, node, nodes, offset)
         == TexCoordData(k, Shifted(sd, sd.dP.dy, sd.rayDP.dy), cameraRay, node, nodes, offset)
  {
    var s := Shifted(sd, sd.dP.dy, sd.rayDP.dy);
    assert s.N == sd.N && s.I == sd.I && s.obj == sd.obj;
  }

  /**
   * The y variant's environment cases do not move with the differential:
   * they equal the base node, except the environment map, which goes
   * through the camera frame and the world projection instead.
   */
  lemma BumpDyEnvironmentUnshifted(k: Kernel, sd: ShaderData, cameraRay: bool, node: TexCoordNode, nodes: seq<Float4>, offset: nat)
    requires ValidNodeStream(node, nodes, offset)
    requires node.texcoType.IsEnvironment() && BumpDyHandles(k, node.texcoType)
    ensures !node.texcoType.TexCoEnvEmap? ==>
      BumpDyData(k, sd, cameraRay, node, nodes, offset) == TexCoordData(k, sd, cameraRay, node, nodes, offset)
    ensures node.texcoType.TexCoEnvEmap? && k.features.rayDifferentials ==>
      var r := ReflectedIncomingRay(k, sd);
      && TexCoordData(k, sd, cameraRay, node, nodes, offset) == k.envEmapAct(r)
      && BumpDyData(k, sd, cameraRay, node, nodes, offset)
         == k.envWorldEmap(TransformDirection(k.worldToCamera, Float3(-r.z, r.x, -r.y)))
  {
  }

  /** The environment cases see neither the position nor its differentials. */
  lemma EnvironmentIgnoresPosition(k: Kernel, sd: ShaderData, d: Float3, rd: Float3, cameraRay: bool,
                                   node: TexCoordNode, nodes: seq<Float4>, offset: nat)
    requires ValidNodeStream(node, nodes, offset) && node.texcoType.IsEnvironment()
    ensures TexCoordData(k, Shifted(sd, d, rd), cameraRay, node, nodes, offset)
         == TexCoordData(k, sd, cameraRay, node, nodes, offset)
  {
    var s := Shifted(sd, d, rd);
    assert s.N == sd.N && s.I == sd.I;
  }

  /** Without ray differentials both variants are the base node. */
  lemma BumpWithoutRayDifferentials(k: Kernel, sd: ShaderData, cameraRay: bool, node: TexCoordNode, nodes: seq<Float4>, offset: nat)
    requires ValidNodeStream(node, nodes, offset) && !k.features.rayDifferentials
    ensures BumpDxData(k, sd, cameraRay, node, nodes, offset) == TexCoordData(k, sd, cameraRay, node, nodes, offset)
    ensures BumpDyData(k, sd, cameraRay, node, nodes, offset) == TexCoordData(k, sd, cameraRay, node, nodes, offset)
  {
  }

  /**
   * Camera coordinates off any object differ from those on an object only by
   * the camera position, carried through the same rotation.
   */
  lemma CameraCoordOffObject(k: Kernel, sd: ShaderData, pos: Float3)
    requires sd.obj.ObjectNone?
    ensures CameraCoord(k, sd, pos)
         == Add(CameraCoord(k, sd.(obj := ObjectIndex(0)), pos), TransformDirection(k.worldToCamera, k.cameraPosition))
  {
    TransformDirectionAdditive(k.worldToCamera, pos, k.cameraPosition);
  }
}
