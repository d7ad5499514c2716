// The tangent node: a tangent from a UV map or radially around an axis,
// carried into world space and made perpendicular to the shading normal.

module Tangent {
  import opened Vectors
  import opened Shading
  import opened SvmStack
  import opened WcsBox

  datatype TangentDirection = TangentRadial | TangentUvMap

  datatype TangentAxis = AxisX | AxisY | AxisZ

  /** A tangent node: output offset, direction type, radial axis, and the attribute it reads. */
  datatype TangentNode = TangentNode(
    tangentOffset: nat,
    directionType: TangentDirection,
    axis: TangentAxis,
    attr: AttrKey)

  function AxisIndex(axis: TangentAxis): (i: nat)
    ensures i < 3
  {
    match axis
    case AxisX => 0
    case AxisY => 1
    case AxisZ => 2
  }

  /** A sampled attribute as a vector; a two-component one gets a zero third component. */
  function AttributeValue(k: Kernel, desc: FoundAttr): Float3 {
    if desc.isFloat2 then
      var value := k.attributeFloat2(desc);
      Float3(value.0, value.1, 0.0)
    else k.attributeFloat3(desc)
  }

  const Centre: Float3 := Float3(0.5, 0.5, 0.5)

  /**
   * The tangent of the circle through `g` around the line through the centre
   * of the unit cube along `axis`: it has no component along the axis, is
   * perpendicular to the offset of `g` from the centre, and is as long as
   * that offset's part across the axis.
   */
  function RadialTangent(g: Float3, axis: TangentAxis): (t: Float3)
    ensures Component(t, AxisIndex(axis)) == 0.0
    ensures Dot(t, Sub(g, Centre)) == 0.0
    ensures var o := Sub(g, Centre);
      Dot(t, t) == Dot(o, o) - Component(o, AxisIndex(axis)) * Component(o, AxisIndex(axis))
  {
    match axis
    case AxisX => Float3(0.0, -(g.z - 0.5), g.y - 0.5)
    case AxisY => Float3(-(g.z - 0.5), 0.0, g.x - 0.5)
    case AxisZ => Float3(-(g.y - 0.5), g.x - 0.5, 0.0)
  }

  /**
   * The tangent in object space: the UV-map attribute, or the zero vector
   * when it is missing; radially, around the attribute's position, or
   * around the shading point when the attribute is missing.
   */
  function ObjectTangent(k: Kernel, sd: ShaderData, node: TangentNode): (t: Float3)
    ensures node.directionType.TangentUvMap? && k.findAttribute(node.attr).AttrNotFound? ==> t == Zero
    ensures node.directionType.TangentRadial? && k.findAttribute(node.attr).AttrNotFound? ==>
      t == RadialTangent(sd.P, node.axis)
    ensures node.directionType.TangentRadial? ==> Component(t, AxisIndex(node.axis)) == 0.0
  {
    var desc := k.findAttribute(node.attr);
    match node.directionType
    case TangentUvMap => if desc.AttrNotFound? then Zero else AttributeValue(k, desc)
    case TangentRadial =>
      var generated := if desc.AttrNotFound? then sd.P else AttributeValue(k, desc);
      RadialTangent(generated, node.axis)
  }

  /** The stored tangent: world space, then made perpendicular to the shading normal. */
  function TangentResult(k: Kernel, sd: ShaderData, node: TangentNode): (t: Float3)
    ensures Dot(sd.N, t) == 0.0
  {
    var w := k.normalize(Cross(k.objectNormal(ObjectTangent(k, sd, node)), sd.N));
    CrossPerpendicular(sd.N, w);
    Cross(sd.N, w)
  }

  /** `svm_node_tangent`; only the three output slots change. */
  method NodeTangent(k: Kernel, sd: ShaderData, stack: array<real>, node: TangentNode)
    requires node.tangentOffset + 3 <= stack.Length
    modifies stack
    ensures stack[..] == Stored(old(stack[..]), node.tangentOffset, TangentResult(k, sd, node))
  {
    var tangent: Float3;
    var attributeValue: Float3 := Zero;
    var desc := k.findAttribute(node.attr);
    if desc.AttrFound? {
      if desc.isFloat2 {
        var value := k.attributeFloat2(desc);
        attributeValue := Float3(value.0, value.1, 0.0);
      } else {
        attributeValue := k.attributeFloat3(desc);
      }
    }

    if node.directionType.TangentUvMap? {
      if desc.AttrNotFound? {
        tangent := Zero;
      } else {
        tangent := attributeValue;
      }
    } else {
      var generated: Float3;
      if desc.AttrNotFound? {
        generated := sd.P;
      } else {
        generated := attributeValue;
      }
      if node.axis.AxisX? {
        tangent := Float3(0.0, -(generated.z - 0.5), generated.y - 0.5);
      } else if node.axis.AxisY? {
        tangent := Float3(-(generated.z - 0.5), 0.0, generated.x - 0.5);
      } else {
        tangent := Float3(-(generated.y - 0.5), generated.x - 0.5, 0.0);
      }
    }

    tangent := k.objectNormal(tangent);
    tangent := Cross(sd.N, k.normalize(Cross(tangent, sd.N)));
    StoreFloat3(stack, node.tangentOffset, tangent);
  }
}
