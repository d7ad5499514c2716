// The shading point and the kernel services the texture-coordinate,
// normal-map and tangent nodes consult.

module Shading {
  import opened Wrappers
  import opened Vectors

  /** The object a shading point lies on; `ObjectNone` is the `OBJECT_NONE` sentinel (background, lights). */
  datatype ObjectRef = ObjectNone | ObjectIndex(index: nat)

  /** A position's screen-space differentials. */
  datatype Differential3 = Differential3(dx: Float3, dy: Float3)

  /**
   * The parts of the shading point the nodes read: position, shading and
   * geometric normal, incoming direction, their differentials, the ray
   * origin, the object, and the back-facing and smooth-normal flags.
   */
  datatype ShaderData = ShaderData(
    P: Float3,
    N: Float3,
    Ng: Float3,
    I: Float3,
    dP: Differential3,
    rayP: Float3,
    rayDP: Differential3,
    obj: ObjectRef,
    backfacing: bool,
    smoothNormal: bool)

  /** The shading point moved by `d`, with its ray origin moved by `rd`. */
  function Shifted(sd: ShaderData, d: Float3, rd: Float3): (s: ShaderData)
    ensures s.P == Add(sd.P, d) && s.rayP == Add(sd.rayP, rd)
    ensures s.(P := sd.P, rayP := sd.rayP) == sd
  {
    sd.(P := Add(sd.P, d), rayP := Add(sd.rayP, rd))
  }

  /** Which attribute a node asks for: one named by the node, or the standard vertex normal. */
  datatype AttrKey = NodeAttribute(id: nat) | StdVertexNormal

  /** The answer of an attribute lookup; `AttrNotFound` is `ATTR_STD_NOT_FOUND`. */
  datatype AttributeDescriptor =
    | AttrNotFound
    | AttrFound(offset: nat, isFloat2: bool)

  /** Only a descriptor that was found can be sampled. */
  type FoundAttr = d: AttributeDescriptor | d.AttrFound? witness AttrFound(0, false)

  /** Compile-time kernel features. */
  datatype Features = Features(volume: bool, rayDifferentials: bool)

  /**
   * The kernel's services as seen from one shading point: normalisation,
   * object and camera transforms, environment projections, attribute
   * lookup and sampling. They are numerical code outside this model and
   * enter as given functions; sampling accepts only found descriptors.
   */
  datatype Kernel = Kernel(
    features: Features,
    normalize: Float3 -> Float3,
    safeNormalize: Float3 -> Float3,
    ensureValidReflection: (Float3, Float3, Float3) -> Float3,
    /** `Some(ocs_frame)` for an object whose `use_ocs_frame` is positive. */
    objectOcsFrame: nat -> Option<Transform>,
    objectInversePosition: Float3 -> Float3,
    objectInverseNormal: Float3 -> Float3,
    objectNormal: Float3 -> Float3,
    worldToCamera: Transform,
    cameraPosition: Float3,
    orthographicCamera: bool,
    cameraWorldToNdc: Float3 -> Float3,
    dupliGenerated: ObjectRef -> Float3,
    dupliUv: ObjectRef -> Float3,
    volumeNormalizedPosition: Float3 -> Float3,
    envSpherical: Float3 -> Float3,
    envEmapAct: Float3 -> Float3,
    envBox: Float3 -> Float3,
    envLightProbe: Float3 -> Float3,
    envCubemap: Float3 -> Float3,
    envCubemapVerticalCross: Float3 -> Float3,
    envCubemapHorizontalCross: Float3 -> Float3,
    envHemispherical: Float3 -> Float3,
    envWorldEmap: Float3 -> Float3,
    findAttribute: AttrKey -> AttributeDescriptor,
    attributeFloat: FoundAttr -> real,
    attributeFloat2: FoundAttr -> (real, real),
    attributeFloat3: FoundAttr -> Float3)

  /** `p` carried into the object's own frame when the object has one, else unchanged. */
  function OcsFrame(k: Kernel, sd: ShaderData, p: Float3): Float3 {
    if sd.obj.ObjectIndex? && k.objectOcsFrame(sd.obj.index).Some? then
      TransformPoint(k.objectOcsFrame(sd.obj.index).value, p)
    else p
  }

  /** The incoming direction mirrored about the shading normal, normalised. */
  function ReflectedIncomingRay(k: Kernel, sd: ShaderData): Float3 {
    k.normalize(Reflect(sd.N, sd.I))
  }
}
