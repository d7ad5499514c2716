# Cycles devices and texture-coordinate nodes in Dafny

This project models two parts of the Cycles renderer and proves properties of
them.

**The device layer** (`src/device/device.cpp`):

- the lazy device registry behind `Device::available_devices`: a mask of
  probed backends and five per-backend device caches, filled on demand, with
  driver crashes caught per backend;
- its invalidation by `free_memory` / `tag_update`;
- `get_multi_device`, which composes several devices into one `MULTI` device;
- the conversions between device kinds and their names;
- `available_types` and the dispatch decision of `Device::create`.

**The texture-coordinate shader nodes** (`src/kernel/svm/svm_tex_coord.h`):

- the WCS box mapping `wcs_box_coord`: a face choice, then a signed
  permutation of the point;
- the reflected incoming ray;
- `svm_node_tex_coord` and its two bump variants, which evaluate the node at
  the shading point moved by one screen-space differential;
- the normal-map node;
- the tangent node.

## How the model is organised

- `device_types.dfy`:
  - `DeviceTypes` holds device kinds, the descriptor `DeviceInfo`, the build
    configuration (which optional backends are compiled in) and the name
    conversions;
  - `Wrappers` holds `Option`.
- `device_registry.dfy`, module `DeviceRegistry`:
  - The static state of `device.cpp` is the class `DeviceRegistry.Registry`:
    a mask and five caches, updated in place.
  - One call of `available_devices` is specified by the pure function
    `Discover`, built from `Visit`, the block for one backend.
  - `Registry.AvailableDevices` is proved to produce exactly `Discover`'s
    result and new state.
  - The lemmas state the caching, ordering, crash and subsequence properties
    about `Discover`.
- `multi_device.dfy`, module `MultiDevice`:
  - `get_multi_device` is an imperative loop, proved against the function
    `Members`, which says which sub-devices join and with what thread count.
  - Each capability flag is proved to equal "every member has it".
- `vectors.dfy`:
  - `Vectors` holds three-component vectors over `real`, transforms and the
    reflection;
  - `SvmStack` holds the shader stack as an `array<real>`, with `Stored`
    giving the stack after a three-slot store.
- `shading.dfy`, module `Shading`:
  - the shading point (`ShaderData`);
  - the kernel's numerical services (`Kernel`): normalisation, object and
    camera transforms, environment projections, attribute lookup and
    sampling. These enter as given functions, and sampling accepts only a
    descriptor that was found.
- `wcs_box.dfy`, `tex_coord.dfy`, `normal_map.dfy`, `tangent.dfy`: the shader
  nodes.
  - Each node is a method that writes into the stack array.
  - Each is proved to store the value of a specification function in its
    three output slots and to change nothing else.
  - The lemmas state the properties of those functions.

Backend probes are oracles: a `Prober` maps each backend to `Completed(found)`
or `Crashed(partial)`. A crash may strike after the info routine has already
appended some devices to the cache. The requested mask is a set of device
kinds.

Where a plain reading of the registry's behaviour would differ, the model
follows `device.cpp`:

- a backend whose probe crashed keeps its mask bit clear, and the next call
  probes it again (lines 627-637, 644-657);
- OpenCL devices are returned only by the call that probes OpenCL (lines
  626-637);
- a crash in the CPU probe is not caught: it leaves the call, which the model
  returns as `None`.

## Model

| member | source | states |
|---|---|---|
| DeviceTypes.TypeFromString | src/device/device.cpp:516-532 | only the six kind names select a kind; every other name selects `DeviceNone` |
| DeviceTypes.StringFromType | src/device/device.cpp:534-550 | the name is empty exactly for `DeviceNone` |
| DeviceTypes.TypeNameRoundTrip | src/device/device.cpp:516-550 | reading back the name of any kind but `DeviceNone` gives the kind |
| DeviceTypes.NameTypeRoundTrip | src/device/device.cpp:516-550 | a name that selects a kind is that kind's name, so the conversions are mutually inverse on the six names |
| DeviceTypes.TypeNamesInjective | src/device/device.cpp:534-550 | distinct kinds have distinct names |
| DeviceTypes.AvailableTypes | src/device/device.cpp:552-569 | CPU comes first, a kind is listed exactly when it is a backend compiled into the build, and the list follows the fixed order CPU, CUDA, OptiX, OpenCL, Network with no kind twice |
| DeviceTypes.CreateBackend | src/device/device.cpp:467-514 | `create` picks the constructor of the descriptor's kind, and returns null exactly for an unknown kind, a compiled-out backend, `MULTI` without multi-device support, or a failed CUDA/OptiX/OpenCL init |
| DeviceRegistry.Registry.constructor | src/device/device.cpp:41-49 | the static state starts with an empty mask and five empty caches |
| DeviceRegistry.Registry.ProbeBackend | src/device/device.cpp:614-692 | one backend's block changes the registry and the gathered devices exactly as `Visit` says, including the crash and OpenCL cases |
| DeviceRegistry.Registry.AvailableDevices | src/device/device.cpp:602-695 | the call leaves the registry in `Discover`'s final state, and returns its devices, or `None` when a CPU crash escaped |
| DeviceRegistry.Registry.FreeMemory | src/device/device.cpp:793-801 | the mask is cleared and all five caches are emptied |
| DeviceRegistry.Registry.TagUpdate | src/device/device.cpp:788-791 | the same reset as `free_memory` |
| DeviceRegistry.DiscoverIsVisitAll | src/device/device.cpp:614-692 | a call visits the backends in the fixed order CPU, OpenCL, CUDA, OptiX, Network |
| DeviceRegistry.CachedNotReprobed | src/device/device.cpp:614-692 | a backend whose bit is set is not probed: its probe's answer does not affect the call, and its bit and cache are unchanged |
| DeviceRegistry.UnrequestedUntouched | src/device/device.cpp:614-692 | a backend that is not requested or not compiled in keeps its bit and its cache |
| DeviceRegistry.CrashFreeSetsRequestedBits | src/device/device.cpp:614-692 | after a crash-free call, the mask is the old mask plus every requested compiled-in backend, and nothing else |
| DeviceRegistry.CrashFreeResult | src/device/device.cpp:614-692 | a crash-free call returns the final caches of the requested backends in the fixed order, with OpenCL's left out when OpenCL was already probed; each freshly probed cache gains exactly what its probe found |
| DeviceRegistry.OpenCLOnlyOnProbingCall | src/device/device.cpp:625-638 | with the OpenCL bit set, a call is identical to the same call without OpenCL requested |
| DeviceRegistry.CrashIsolated | src/device/device.cpp:627-691 | a crash in a non-CPU probe leaves that backend's bit clear and adds nothing from it to the result; the call equals the call without that backend, except that the backend's cache holds the partial list |
| DeviceRegistry.RepeatedCall | src/device/device.cpp:614-692 | a second call after a crash-free one probes nothing and changes nothing; it repeats the first result unless the first call was the one that probed OpenCL (OpenCL requested, compiled in and not yet probed) |
| DeviceRegistry.ReprobeAfterInvalidation | src/device/device.cpp:602-695 | after invalidation, a crash-free call probes every requested compiled-in backend once; each cache is what its probe found, the others stay empty, and the result lists them in order |
| DeviceRegistry.SubmaskGivesSubsequence | src/device/device.cpp:614-692 | on the same registry, whenever the call for the larger mask returns, the call for a subset of it returns too and lists a subsequence of its devices |
| DeviceRegistry.CrashFreeSubmaskSubsequence | src/device/device.cpp:614-692 | the same, for calls in which no probe faults |
| DeviceRegistry.EscapesOnlyFromCpu | src/device/device.cpp:614-622 | a call ends in an escaping fault exactly when the CPU block, which has no fault barrier, probes and faults |
| DeviceRegistry.DropFaulting | src/device/device.cpp:624-692 | dropping any set of faulting non-CPU backends from the mask leaves the result and the escape flag of the call unchanged |
| DeviceRegistry.DropOneFaulting | src/device/device.cpp:624-692 | dropping one faulting non-CPU backend from the mask leaves the result and the escape flag unchanged |
| DeviceRegistry.WithoutFaultingIsCrashFree | src/device/device.cpp:614-692 | with the CPU block not faulting and the faulting backends dropped, no probe of the call faults |
| MultiDevice.GetMultiDevice | src/device/device.cpp:728-786 | one sub-device is returned unchanged; several give a `MULTI` device with id "MULTI" and num 0, whose members are `Members` of the input, and each of whose capability flags holds exactly when every member has it |
| MultiDevice.AddSubdevice | src/device/device.cpp:750-783 | one loop pass yields `JoinStep` of the sub-device's `Member` |
| MultiDevice.JoiningMember | src/device/device.cpp:750-776 | the admission test yields `Member`: a non-CPU device unchanged; a CPU only in background mode, with the reduced thread count, and only when at least one thread is left |
| MultiDevice.ReducedCpuThreads | src/device/device.cpp:754-755 | the reduced CPU thread count is never negative, and is either 0 or the requested (or system) count less one per other device |
| MultiDevice.JoinStepKeepsFlagsAgree | src/device/device.cpp:778-783 | a join appends the member, keeps the header, and keeps each flag equal to "all members have it" |
| MultiDevice.NonCpuAlwaysIncluded | src/device/device.cpp:750-776 | the non-CPU devices among the members are exactly the non-CPU sub-devices, in input order |
| MultiDevice.InteractiveExcludesCpu | src/device/device.cpp:769-772 | in interactive mode the members are the non-CPU sub-devices and include no CPU |
| MultiDevice.BackgroundCpuThreads | src/device/device.cpp:753-767 | in background mode, every CPU joins with the reduced count when that count is at least 1; otherwise no CPU joins |
| TexCoord.ReflectedIncomingRayMirrorsIncoming | src/kernel/svm/svm_tex_coord.h:119-129 | the environment ray is the normalized reflection coordinate on an object; about a unit normal it keeps the incoming ray's component along the normal and its length, and mirroring it again gives the incoming ray |
| Vectors.ReflectAboutUnitNormal | src/kernel/svm/svm_tex_coord.h:119-129 | about a unit normal, the reflected ray keeps the component along the normal and the length, and reflecting twice gives the ray back |
| Vectors.TransformDirectionAdditive | src/kernel/svm/svm_tex_coord.h:182-189 | a direction transform carries a sum to the sum of the images |
| WcsBox.DominantAxis | src/kernel/svm/svm_tex_coord.h:47-51 | the chosen axis has the largest magnitude; x wins ties with y, and z must be strictly larger |
| WcsBox.DominantZeroIffZero | src/kernel/svm/svm_tex_coord.h:67 | the dominant component is zero exactly for the zero vector |
| WcsBox.SignedFace | src/kernel/svm/svm_tex_coord.h:53-72 | the face lies in 1..6 and is 2k+1 or 2k+2 for dominant axis k; it is odd exactly when that component is negative |
| WcsBox.BoxFace | src/kernel/svm/svm_tex_coord.h:30-72 | some face in 1..6 is always selected (with the corrected point face, see Findings) |
| WcsBox.WcsBoxCoord | src/kernel/svm/svm_tex_coord.h:22-117 | the step-by-step face selection and permutation give `BoxCoord`: the object frame, then the normal's face (the point's, corrected as in Findings, when the normal is zero), then that face's permutation |
| WcsBox.NormalDecidesFace | src/kernel/svm/svm_tex_coord.h:47-72 | with a non-zero normal, the face depends only on the normal |
| WcsBox.PointFaceOnlyForZeroNormal | src/kernel/svm/svm_tex_coord.h:30-72 | the point's face survives only when the normal is the zero vector |
| WcsBox.EdgeResolvedByNormal | src/kernel/svm/svm_tex_coord.h:36-72 | a point on the edge between the x and y faces is sent to the face the normal points at |
| WcsBox.BoxProjectSignedPermutation | src/kernel/svm/svm_tex_coord.h:81-116 | each face's output components are plus or minus input components; the sum of squares is kept; the third output is the face axis's coordinate; face 6 is the identity |
| WcsBox.PointFaceAsWritten | src/kernel/svm/svm_tex_coord.h:36-45 | the point face as written agrees with the corrected one unless z dominates |
| WcsBox.BoxFaceAsWritten | src/kernel/svm/svm_tex_coord.h:30-72 | the as-written face choice lies in 1..6 |
| WcsBox.PointFaceAsWrittenMisreadsZ | src/kernel/svm/svm_tex_coord.h:41 | for the point (0.1, 0.25, -2) with a zero normal, the code as written picks face 6 and stores (0.1, 0.25, -2) where face 5 is meant and (-0.1, 0.25, -2) would be stored |
| WcsBox.BoxCoordAsWrittenDiffers | src/kernel/svm/svm_tex_coord.h:30-117 | the mapping as written stores something else than the corrected one exactly when the normal is zero, z dominates the point, y and z have opposite signs and x is non-zero |
| WcsBox.AsWrittenAgreesWithNormal | src/kernel/svm/svm_tex_coord.h:30-72 | with a non-zero normal, the as-written and corrected face choices agree |
| TexCoord.WindowCoord | src/kernel/svm/svm_tex_coord.h:191-198 | the window coordinate has a zero third component; which point it is taken from is stated by `TexCoord.WindowOrthoCameraUsesRayOrigin` |
| TexCoord.WindowOrthoCameraUsesRayOrigin | src/kernel/svm/svm_tex_coord.h:191-198 | a camera ray off any object seen by an orthographic camera takes its window coordinate from the ray origin, not the shading point; every other case takes it from the shading point, not the ray origin |
| TexCoord.TexCoordData | src/kernel/svm/svm_tex_coord.h:131-269 | the Window case has third component 0, and the Reflection case off any object is `sd->I` |
| TexCoord.BumpDxData | src/kernel/svm/svm_tex_coord.h:271-371 | the same two guarantees for the x bump variant |
| TexCoord.BumpDyData | src/kernel/svm/svm_tex_coord.h:373-513 | the same two guarantees for the y bump variant |
| TexCoord.NodeTexCoord | src/kernel/svm/svm_tex_coord.h:131-269 | the node stays at its offset, or reads an inline transform (Object or WCS box with the transform flag) and moves past exactly those three words, which lie inside the stream; it writes `TexCoordData` into the three output slots and leaves the rest of the stack unchanged |
| TexCoord.NodeTexCoordBumpDx | src/kernel/svm/svm_tex_coord.h:271-371 | the same for `BumpDxData`; without ray differentials this is the base node |
| TexCoord.NodeTexCoordBumpDy | src/kernel/svm/svm_tex_coord.h:373-513 | the same for `BumpDyData`; without ray differentials this is the base node |
| TexCoord.BumpDxIsShiftedBase | src/kernel/svm/svm_tex_coord.h:279-365 | every case of the x variant is the base node at the point moved by `dP.dx`, with the ray origin moved by `ray_dP.dx` |
| TexCoord.BumpDyIsShiftedBase | src/kernel/svm/svm_tex_coord.h:381-466 | every non-environment case of the y variant is the base node at the point moved by `dP.dy` |
| TexCoord.BumpDyEnvironmentUnshifted | src/kernel/svm/svm_tex_coord.h:467-506 | the y variant's environment cases equal the base node's, except the environment map, which goes through the camera frame and the world projection instead of `env_emap_act` |
| TexCoord.EnvironmentIgnoresPosition | src/kernel/svm/svm_tex_coord.h:224-265 | the environment cases depend on neither the position nor the ray origin |
| TexCoord.BumpWithoutRayDifferentials | src/kernel/svm/svm_tex_coord.h:368-370 | without ray differentials, both bump variants are the base node |
| TexCoord.CameraCoordOffObject | src/kernel/svm/svm_tex_coord.h:182-189 | off any object, camera coordinates are those on an object plus the rotated camera position |
| NormalMap.DecodeColor | src/kernel/svm/svm_tex_coord.h:520-521 | decoding inverts the colour encoding, and maps channels in [0, 1] to components in [-1, 1] |
| NormalMap.DecodeEncode | src/kernel/svm/svm_tex_coord.h:521 | encoding a normal and decoding it back gives the normal |
| NormalMap.MappedNormal | src/kernel/svm/svm_tex_coord.h:526-584 | there is no mapped normal exactly when tangent space lacks the object, the tangent, its sign or the vertex normal |
| NormalMap.Finish | src/kernel/svm/svm_tex_coord.h:586-602 | the final normal is never zero unless it is `sd->N` itself |
| NormalMap.BackfacingInvertsNormal | src/kernel/svm/svm_tex_coord.h:586-589 | on a backfacing polygon the result is that of the front-facing polygon with the mapped normal negated |
| NormalMap.NormalMapResult | src/kernel/svm/svm_tex_coord.h:515-605 | missing tangent data stores the zero vector; otherwise a zero result can only be `sd->N` |
| NormalMap.NodeNormalMap | src/kernel/svm/svm_tex_coord.h:515-605 | the node, with its early returns, writes `NormalMapResult` of the colour and strength inputs into the three output slots and changes nothing else |
| NormalMap.BlenderSpacesMirrorColor | src/kernel/svm/svm_tex_coord.h:572-575 | a Blender object or world map acts as a plain object or world map whose colour has y and z mirrored about 1/2 |
| NormalMap.NegativeStrengthActsAsZero | src/kernel/svm/svm_tex_coord.h:591-596 | a negative strength gives the same result as strength 0 |
| NormalMap.NonPositiveStrengthIgnoresMap | src/kernel/svm/svm_tex_coord.h:586-602 | at strength 0 or below, the result does not depend on the mapped normal |
| NormalMap.UnitStrengthSkipsBlend | src/kernel/svm/svm_tex_coord.h:591-596 | at strength exactly 1 no blend takes place: the result does not depend on the normalisation the blend would use |
| Tangent.RadialTangent | src/kernel/svm/svm_tex_coord.h:643-648 | the radial tangent has no component along the axis, is perpendicular to the offset from the cube centre, and is as long as that offset across the axis |
| Tangent.ObjectTangent | src/kernel/svm/svm_tex_coord.h:627-649 | UV-map mode with a missing attribute gives zero; radial mode with a missing attribute goes around `sd->P`; a radial tangent has no component along its axis |
| Tangent.TangentResult | src/kernel/svm/svm_tex_coord.h:651-652 | the stored tangent is perpendicular to the shading normal |
| Tangent.NodeTangent | src/kernel/svm/svm_tex_coord.h:607-654 | the node writes `TangentResult` into the three output slots and changes nothing else |

## Left out

- Locking with `device_mutex`: each call of `available_devices` is atomic in the model.
- The Windows structured-exception translator: a crash is a probe outcome, `Crashed(partial)`, chosen by the prober.
- The OpenGL presentation code of `device.cpp` (lines 85-465): it is GL calls only.
- `operator<<` for the requested features: it is text formatting only.
- `device_capabilities`: it only calls foreign capability-string functions.
- The backend constructors and runtime `init` routines: `DeviceTypes.CreateBackend` takes the init results as a parameter and returns which constructor runs.
- `device.h` is not part of this model.
  - The backend mask bits are modelled as a set of kinds.
  - The default descriptor is taken as kind CPU, id "CPU", num 0, no capabilities, 0 threads.
- `system_cpu_thread_count()` is a parameter of `GetMultiDevice`.
- The `VLOG` messages are not modelled.
- `MultiDevice.ReducedCpuThreads` works on mathematical integers floored at 0. It does not model the `int`/`size_t` mix of line 755.
- All floating point in the shader file is over `real`, with no rounding, NaN or infinity. This covers normalisation, `ensure_valid_reflection`, the object and camera transforms, `camera_world_to_ndc`, the `env_*` projections and attribute sampling, which are given functions of `Shading.Kernel`.
- Node words are typed records; `svm_unpack_node_uchar*` and the bit layout of the node are not modelled.
- `svm_node_tex_coord` leaves `data` uninitialised for an unknown coordinate type; the model's node type has only the known types.
- The bump variants are not defined for some types. With ray differentials on, the x variant has no environment cases and the y variant has no environment box case, so both would store an undefined value. The preconditions `BumpDxHandles` and `BumpDyHandles` exclude those types.
- WcsBox.WcsBoxCoord: it, and so the WCS box case of the three nodes, uses the corrected point face of the Findings table, not line 41 as written. `WcsBox.BoxCoordAsWrittenDiffers` states exactly where the two differ.
- WcsBox.BoxFace: it selects the corrected point face when the normal is zero; `WcsBox.BoxFaceAsWritten` is the choice as written.
- `stack_store_float3` and `stack_load_float3` are modelled only as `SvmStack.StoreFloat3` and `SvmStack.LoadFloat3` over an array of reals; `read_node_float` is not part of this model, and the node stream is a sequence of four-component rows.

## Findings

| source | as written | input that shows it | evidently intended | confidence | as-written member | corrected member |
|---|---|---|---|---|---|---|
| src/kernel/svm/svm_tex_coord.h:41 | the point face's sign is read as `side1 ? dy : dx`, so it comes from y when z dominates | point (0.1, 0.25, -2) with a zero normal: z dominates and is negative, but face 6 (top) is chosen, so (0.1, 0.25, -2) is stored instead of (-0.1, 0.25, -2) | read the sign of the dominant component, z when `side1 == 2`, giving face 5 (bottom) | not executed | WcsBox.PointFaceAsWrittenMisreadsZ | WcsBox.SignedFace |
