// Device kinds, device descriptors, the build configuration and the
// conversions between device kinds and their names.

module Wrappers {
  datatype Option<+T> = None | Some(value: T)
}

module DeviceTypes {
  import opened Wrappers

  /** The device kinds. `DeviceNone` is the answer for an unknown name. */
  datatype DeviceType =
    | DeviceNone
    | DeviceCpu
    | DeviceOpenCL
    | DeviceCuda
    | DeviceNetwork
    | DeviceMulti
    | DeviceOptix
  {
    /** The kinds that have a probe and a cache of their own in the registry. */
    predicate IsBackend() {
      DeviceCpu? || DeviceOpenCL? || DeviceCuda? || DeviceOptix? || DeviceNetwork?
    }
  }

  type Backend = t: DeviceType | t.IsBackend() witness DeviceCpu

  /** A discoverable device, or a composite of several when of kind `DeviceMulti`. */
  datatype DeviceInfo = DeviceInfo(
    deviceType: DeviceType,
    description: string,
    id: string,
    num: int,
    displayDevice: bool,
    hasHalfImages: bool,
    hasVolumeDecoupled: bool,
    hasOsl: bool,
    hasProfiling: bool,
    cpuThreads: int,
    multiDevices: seq<DeviceInfo>)

  /** A default-constructed descriptor. */
  const DefaultInfo: DeviceInfo :=
    DeviceInfo(DeviceCpu, "", "CPU", 0, false, false, false, false, false, 0, [])

  /** Which optional backends this build was compiled with (the CPU is always present). */
  datatype Build = Build(
    withCuda: bool,
    withOptix: bool,
    withOpenCL: bool,
    withNetwork: bool,
    withMulti: bool)

  /** Whether the code for backend `t` is compiled into `build`. */
  predicate Compiled(build: Build, t: DeviceType) {
    match t
    case DeviceCpu => true
    case DeviceCuda => build.withCuda
    case DeviceOptix => build.withOptix
    case DeviceOpenCL => build.withOpenCL
    case DeviceNetwork => build.withNetwork
    case _ => false
  }

  /** The kind a device name selects; every other name selects `DeviceNone`. */
  function TypeFromString(name: string): (t: DeviceType)
    ensures t != DeviceNone ==> name in {"CPU", "CUDA", "OPTIX", "OPENCL", "NETWORK", "MULTI"}
  {
    if name == "CPU" then DeviceCpu
    else if name == "CUDA" then DeviceCuda
    else if name == "OPTIX" then DeviceOptix
    else if name == "OPENCL" then DeviceOpenCL
    else if name == "NETWORK" then DeviceNetwork
    else if name == "MULTI" then DeviceMulti
    else DeviceNone
  }

  /** The name of a device kind; `DeviceNone` has the empty name. */
  function StringFromType(t: DeviceType): (name: string)
    ensures name == "" <==> t == DeviceNone
  {
    match t
    case DeviceCpu => "CPU"
    case DeviceCuda => "CUDA"
    case DeviceOptix => "OPTIX"
    case DeviceOpenCL => "OPENCL"
    case DeviceNetwork => "NETWORK"
    case DeviceMulti => "MULTI"
    case DeviceNone => ""
  }

  /** Naming a kind and reading the name back gives the kind again. */
  lemma TypeNameRoundTrip(t: DeviceType)
    requires t != DeviceNone
    ensures TypeFromString(StringFromType(t)) == t
  {
  }

  /** A name that selects a kind is exactly that kind's name. */
  lemma NameTypeRoundTrip(name: string)
    requires TypeFromString(name) != DeviceNone
    ensures StringFromType(TypeFromString(name)) == name
  {
  }

  /** The two conversions are a bijection between the named kinds and their six names. */
  lemma TypeNamesInjective(t1: DeviceType, t2: DeviceType)
    ensures StringFromType(t1) == StringFromType(t2) ==> t1 == t2
  {
  }

  /** The position of a backend in the listing of `available_types`. */
  function ListingRank(t: DeviceType): nat {
    match t
    case DeviceCpu => 0
    case DeviceCuda => 1
    case DeviceOptix => 2
    case DeviceOpenCL => 3
    case DeviceNetwork => 4
    case _ => 5
  }

  /** The backends compiled into `build`, CPU first, then CUDA, OptiX, OpenCL and Network. */
  function AvailableTypes(build: Build): (types: seq<DeviceType>)
    ensures |types| > 0 && types[0] == DeviceCpu
    ensures forall t :: t in types <==> t.IsBackend() && Compiled(build, t)
    ensures forall i, j :: 0 <= i < j < |types| ==> ListingRank(types[i]) < ListingRank(types[j])
  {
    [DeviceCpu]
    + (if build.withCuda then [DeviceCuda] else [])
    + (if build.withOptix then [DeviceOptix] else [])
    + (if build.withOpenCL then [DeviceOpenCL] else [])
    + (if build.withNetwork then [DeviceNetwork] else [])
  }

  /**
   * Which backend's constructor `Device::create` calls for `info`, or `None`
   * when it returns null: an unknown or compiled-out kind, or a backend whose
   * runtime `init` (given by `initSucceeds`) fails.
   */
  function CreateBackend(build: Build, info: DeviceInfo, initSucceeds: DeviceType -> bool): (r: Option<DeviceType>)
    ensures r.Some? ==> r.value == info.deviceType
    ensures r.None? <==>
      || info.deviceType == DeviceNone
      || (info.deviceType == DeviceMulti && !build.withMulti)
      || (info.deviceType.IsBackend() && !Compiled(build, info.deviceType))
      || (info.deviceType in {DeviceCuda, DeviceOptix, DeviceOpenCL} && !initSucceeds(info.deviceType))
  {
    match info.deviceType
    case DeviceCpu => Some(DeviceCpu)
    case DeviceCuda =>
      if build.withCuda && initSucceeds(DeviceCuda) then Some(DeviceCuda) else None
    case DeviceOptix =>
      if build.withOptix && initSucceeds(DeviceOptix) then Some(DeviceOptix) else None
    case DeviceMulti => if build.withMulti then Some(DeviceMulti) else None
    case DeviceNetwork => if build.withNetwork then Some(DeviceNetwork) else None
    case DeviceOpenCL =>
      if build.withOpenCL && initSucceeds(DeviceOpenCL) then Some(DeviceOpenCL) else None
    case DeviceNone => None
  }
}
