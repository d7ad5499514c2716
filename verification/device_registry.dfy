// The process-wide device registry: a lazily filled cache of the devices of
// each backend, guarded by a mask of the backends already probed.
//
// A call to `available_devices` is specified by `Discover`, a pure function
// of the registry state before the call, the requested backends and the
// outcome each backend's probe would have.  The class `Registry` holds the
// static state and its methods are proved against that function; the lemmas
// below state what the lazy caching promises about it.

module DeviceRegistry {
  import opened Wrappers
  import opened DeviceTypes

  /**
   * What probing one backend does.  `Completed(found)`: the runtime's init
   * either failed (found is empty) or succeeded and `info` appended `found`.
   * `Crashed(partial)`: the driver faulted after `info` had appended
   * `partial` (empty when it faulted in init).
   */
  datatype ProbeOutcome = Completed(found: seq<DeviceInfo>) | Crashed(partial: seq<DeviceInfo>)
  {
    function Appended(): seq<DeviceInfo> {
      if Completed? then found else partial
    }
  }

  /** The probe outcome of each backend, for the duration of one call. */
  type Prober = DeviceType -> ProbeOutcome

  /** The five per-backend device caches. */
  datatype Caches = Caches(
    cpu: seq<DeviceInfo>,
    openCL: seq<DeviceInfo>,
    cuda: seq<DeviceInfo>,
    optix: seq<DeviceInfo>,
    network: seq<DeviceInfo>)
  {
    function Get(b: Backend): seq<DeviceInfo> {
      if b == DeviceCpu then cpu
      else if b == DeviceOpenCL then openCL
      else if b == DeviceCuda then cuda
      else if b == DeviceOptix then optix
      else network
    }

    function With(b: Backend, l: seq<DeviceInfo>): (c: Caches)
      ensures c.Get(b) == l
      ensures forall o: Backend :: o != b ==> c.Get(o) == Get(o)
    {
      if b == DeviceCpu then this.(cpu := l)
      else if b == DeviceOpenCL then this.(openCL := l)
      else if b == DeviceCuda then this.(cuda := l)
      else if b == DeviceOptix then this.(optix := l)
      else this.(network := l)
    }
  }

  /** The registry: which backends were probed, and the cached devices of each. */
  datatype State = State(initialized: set<DeviceType>, caches: Caches)

  /** The registry at process start and after `free_memory`. */
  const Uninitialized: State := State({}, Caches([], [], [], [], []))

  /** One call in progress: the registry, the devices gathered so far, and
      whether a fault escaped the call. */
  datatype Call = Call(state: State, devices: seq<DeviceInfo>, escaped: bool)

  /** The order in which `available_devices` visits the backends. */
  const ProbeOrder: seq<Backend> := [DeviceCpu, DeviceOpenCL, DeviceCuda, DeviceOptix, DeviceNetwork]

  /** The backends compiled into `build`. */
  function CompiledBackends(build: Build): set<DeviceType> {
    set b | b in ProbeOrder && Compiled(build, b)
  }

  /** Backend `b` is visited by a call: it is compiled in and its bit is in the requested mask. */
  predicate Active(build: Build, requested: set<DeviceType>, b: Backend) {
    Compiled(build, b) && b in requested
  }

  /**
   * The block of `available_devices` for backend `b`.  A probed backend adds
   * its cache, except OpenCL, whose devices are added only by the call that
   * probes it.  An unprobed backend is probed; on success its bit is set and
   * its whole cache is added; on a fault nothing is added and the bit stays
   * clear.  Only the CPU block has no fault barrier: a fault there leaves the
   * call.
   */
  function Visit(build: Build, requested: set<DeviceType>, probe: Prober, c: Call, b: Backend): Call {
    if c.escaped || !Active(build, requested, b) then c
    else if b in c.state.initialized then
      c.(devices := c.devices + (if b == DeviceOpenCL then [] else c.state.caches.Get(b)))
    else
      var grown := c.state.caches.With(b, c.state.caches.Get(b) + probe(b).Appended());
      match probe(b)
      case Completed(_) => Call(State(c.state.initialized + {b}, grown), c.devices + grown.Get(b), false)
      case Crashed(_) => Call(c.state.(caches := grown), c.devices, b == DeviceCpu)
  }

  /** The blocks for `bs`, one after the other. */
  function VisitAll(build: Build, requested: set<DeviceType>, probe: Prober, c: Call, bs: seq<Backend>): Call
    decreases |bs|
  {
    if bs == [] then c
    else VisitAll(build, requested, probe, Visit(build, requested, probe, c, bs[0]), bs[1..])
  }

  /** One call of `available_devices(requested)` on registry `s`. */
  function Discover(build: Build, s: State, requested: set<DeviceType>, probe: Prober): Call {
    var c0 := Call(s, [], false);
    var c1 := Visit(build, requested, probe, c0, DeviceCpu);
    var c2 := Visit(build, requested, probe, c1, DeviceOpenCL);
    var c3 := Visit(build, requested, probe, c2, DeviceCuda);
    var c4 := Visit(build, requested, probe, c3, DeviceOptix);
    Visit(build, requested, probe, c4, DeviceNetwork)
  }

  /** No backend that the call would probe faults. */
  ghost predicate CrashFree(build: Build, s: State, requested: set<DeviceType>, probe: Prober) {
    forall b: Backend :: Active(build, requested, b) && b !in s.initialized ==> probe(b).Completed?
  }

  /** What backend `b` contributes to the result of a crash-free call ending in `final`. */
  function Shown(build: Build, requested: set<DeviceType>, openCLWasProbed: bool, final: State, b: Backend): seq<DeviceInfo> {
    if Active(build, requested, b) && !(b == DeviceOpenCL && openCLWasProbed) then final.caches.Get(b) else []
  }

  /** The contributions of `bs`, concatenated in order. */
  function Listed(build: Build, requested: set<DeviceType>, openCLWasProbed: bool, final: State, bs: seq<Backend>): seq<DeviceInfo> {
    if bs == [] then [] else Shown(build, requested, openCLWasProbed, final, bs[0]) + Listed(build, requested, openCLWasProbed, final, bs[1..])
  }

  /** The same prober, except that backend `b` now answers `alt`. */
  function Override(probe: Prober, b: DeviceType, alt: ProbeOutcome): Prober {
    x => if x == b then alt else probe(x)
  }

  /** The call with `partial` appended to backend `b`'s cache. */
  function GrowCall(c: Call, b: Backend, partial: seq<DeviceInfo>): Call {
    c.(state := c.state.(caches := c.state.caches.With(b, c.state.caches.Get(b) + partial)))
  }

  predicate Distinct(bs: seq<Backend>) {
    forall i, j :: 0 <= i < j < |bs| ==> bs[i] != bs[j]
  }

  // ---------------------------------------------------------------------
  // The registry as the source keeps it: static fields updated in place.

  class Registry {
    const build: Build
    var initializedMask: set<DeviceType>
    var cpuDevices: seq<DeviceInfo>
    var openCLDevices: seq<DeviceInfo>
    var cudaDevices: seq<DeviceInfo>
    var optixDevices: seq<DeviceInfo>
    var networkDevices: seq<DeviceInfo>

    function Snapshot(): State
      reads this
    {
      State(initializedMask, Caches(cpuDevices, openCLDevices, cudaDevices, optixDevices, networkDevices))
    }

    function Cache(b: Backend): (l: seq<DeviceInfo>)
      reads this
      ensures l == Snapshot().caches.Get(b)
    {
      if b == DeviceCpu then cpuDevices
      else if b == DeviceOpenCL then openCLDevices
      else if b == DeviceCuda then cudaDevices
      else if b == DeviceOptix then optixDevices
      else networkDevices
    }

    /** The static initialisation: mask 0 and five empty caches. */
    constructor (build: Build)
      ensures this.build == build
      ensures Snapshot() == Uninitialized
    {
      this.build := build;
      initializedMask := {};
      cpuDevices, openCLDevices, cudaDevices, optixDevices, networkDevices := [], [], [], [], [];
    }

    method SetCache(b: Backend, l: seq<DeviceInfo>)
      modifies this
      ensures Snapshot() == old(Snapshot()).(caches := old(Snapshot()).caches.With(b, l))
    {
      if b == DeviceCpu { cpuDevices := l; }
      else if b == DeviceOpenCL { openCLDevices := l; }
      else if b == DeviceCuda { cudaDevices := l; }
      else if b == DeviceOptix { optixDevices := l; }
      else { networkDevices := l; }
    }

    /** The block of `available_devices` for one backend. */
    method ProbeBackend(requested: set<DeviceType>, probe: Prober, b: Backend, devices: seq<DeviceInfo>)
      returns (devices': seq<DeviceInfo>, escaped: bool)
      modifies this
      ensures var c := Visit(build, requested, probe, Call(old(Snapshot()), devices, false), b);
        Snapshot() == c.state && devices' == c.devices && escaped == c.escaped
    {
      if !(Compiled(build, b) && b in requested) {
        return devices, false;
      }
      if b !in initializedMask {
        var outcome := probe(b);
        SetCache(b, Cache(b) + outcome.Appended());
        if outcome.Crashed? {
          return devices, b == DeviceCpu;
        }
        initializedMask := initializedMask + {b};
      } else if b == DeviceOpenCL {
        return devices, false;
      }
      devices' := devices + Cache(b);
      escaped := false;
    }

    /**
     * `available_devices(requested)`: `None` when a fault in the CPU probe
     * escaped the call, otherwise the devices gathered.
     */
    method AvailableDevices(requested: set<DeviceType>, probe: Prober) returns (r: Option<seq<DeviceInfo>>)
      modifies this
      ensures var call := Discover(build, old(Snapshot()), requested, probe);
        Snapshot() == call.state && r == (if call.escaped then None else Some(call.devices))
    {
      var devices: seq<DeviceInfo> := [];
      var escaped: bool;
      devices, escaped := ProbeBackend(requested, probe, DeviceCpu, devices);
      if escaped {
        return None;
      }
      devices, escaped := ProbeBackend(requested, probe, DeviceOpenCL, devices);
      devices, escaped := ProbeBackend(requested, probe, DeviceCuda, devices);
      devices, escaped := ProbeBackend(requested, probe, DeviceOptix, devices);
      devices, escaped := ProbeBackend(requested, probe, DeviceNetwork, devices);
      r := Some(devices);
    }

    /** `free_memory`: clear the mask and every cache. */
    method FreeMemory()
      modifies this
      ensures Snapshot() == Uninitialized
    {
      initializedMask := {};
      cudaDevices := [];
      optixDevices := [];
      openCLDevices := [];
      cpuDevices := [];
      networkDevices := [];
    }

    /** `tag_update`: the same invalidation. */
    method TagUpdate()
      modifies this
      ensures Snapshot() == Uninitialized
    {
      FreeMemory();
    }
  }

  // ---------------------------------------------------------------------
  // Properties of one call.

  /** `Discover` visits the backends in `ProbeOrder`. */
  lemma DiscoverIsVisitAll(build: Build, s: State, requested: set<DeviceType>, probe: Prober)
    ensures Discover(build, s, requested, probe) == VisitAll(build, requested, probe, Call(s, [], false), ProbeOrder)
  {
    var c0 := Call(s, [], false);
    var bs := ProbeOrder;
    assert bs[1..][1..][1..][1..][1..] == [];
    calc {
      VisitAll(build, requested, probe, c0, bs);
      VisitAll(build, requested, probe, Visit(build, requested, probe, c0, bs[0]), bs[1..]);
    }
  }

  lemma ProbeOrderDistinct()
    ensures Distinct(ProbeOrder)
    ensures forall b: Backend :: b in ProbeOrder
  {
  }

  /** A backend whose bit is set, or that is not visited, keeps its bit and its cache. */
  lemma {:induction false} VisitAllFrame(build: Build, requested: set<DeviceType>, probe: Prober, c: Call, bs: seq<Backend>, b: Backend)
    requires !Active(build, requested, b) || b in c.state.initialized
    ensures var e := VisitAll(build, requested, probe, c, bs);
      && (b in e.state.initialized <==> b in c.state.initialized)
      && e.state.caches.Get(b) == c.state.caches.Get(b)
    decreases |bs|
  {
    if bs != [] {
      VisitAllFrame(build, requested, probe, Visit(build, requested, probe, c, bs[0]), bs[1..], b);
    }
  }

  /** Bits are only ever set, and only for visited backends. */
  lemma {:induction false} VisitAllMaskGrows(build: Build, requested: set<DeviceType>, probe: Prober, c: Call, bs: seq<Backend>)
    ensures var e := VisitAll(build, requested, probe, c, bs);
      c.state.initialized <= e.state.initialized <= c.state.initialized + requested
    decreases |bs|
  {
    if bs != [] {
      VisitAllMaskGrows(build, requested, probe, Visit(build, requested, probe, c, bs[0]), bs[1..]);
    }
  }

  /** The answer of a backend whose bit is set does not matter: it is not probed. */
  lemma {:induction false} VisitAllIgnoresProbed(build: Build, requested: set<DeviceType>, probe: Prober, c: Call, bs: seq<Backend>, b: Backend, alt: ProbeOutcome)
    requires b in c.state.initialized
    ensures VisitAll(build, requested, probe, c, bs) == VisitAll(build, requested, Override(probe, b, alt), c, bs)
    decreases |bs|
  {
    if bs != [] {
      var c1 := Visit(build, requested, probe, c, bs[0]);
      assert c1 == Visit(build, requested, Override(probe, b, alt), c, bs[0]);
      VisitAllIgnoresProbed(build, requested, probe, c1, bs[1..], b, alt);
    }
  }

  /** A crash-free run sets the bit of every visited backend and does not escape. */
  lemma {:induction false} VisitAllSetsBits(build: Build, requested: set<DeviceType>, probe: Prober, c: Call, bs: seq<Backend>)
    requires !c.escaped
    requires forall i :: 0 <= i < |bs| && Active(build, requested, bs[i]) && bs[i] !in c.state.initialized ==> probe(bs[i]).Completed?
    ensures var e := VisitAll(build, requested, probe, c, bs);
      && !e.escaped
      && e.state.initialized == c.state.initialized + (set b | b in bs && Active(build, requested, b))
    decreases |bs|
  {
    if bs != [] {
      var c1 := Visit(build, requested, probe, c, bs[0]);
      VisitAllSetsBits(build, requested, probe, c1, bs[1..]);
      var e := VisitAll(build, requested, probe, c, bs);
      assert e.state.initialized == c.state.initialized + (set b | b in bs && Active(build, requested, b)) by {
        forall x
          ensures x in e.state.initialized <==> x in c.state.initialized + (set b | b in bs && Active(build, requested, b))
        {
          if x in bs[1..] {
            assert x in bs;
          }
          if x in bs && x != bs[0] {
            assert x in bs[1..];
          }
        }
      }
    }
  }

  /** A crash-free run lists the final caches of the visited backends, in visiting order. */
  lemma {:induction false} VisitAllLists(build: Build, requested: set<DeviceType>, probe: Prober, c: Call, bs: seq<Backend>, openCLWasProbed: bool)
    requires !c.escaped && Distinct(bs)
    requires forall i :: 0 <= i < |bs| && Active(build, requested, bs[i]) && bs[i] !in c.state.initialized ==> probe(bs[i]).Completed?
    requires DeviceOpenCL in bs ==> (openCLWasProbed <==> DeviceOpenCL in c.state.initialized)
    ensures var e := VisitAll(build, requested, probe, c, bs);
      e.devices == c.devices + Listed(build, requested, openCLWasProbed, e.state, bs)
    decreases |bs|
  {
    if bs != [] {
      var b := bs[0];
      var c1 := Visit(build, requested, probe, c, b);
      var e := VisitAll(build, requested, probe, c, bs);
      assert DeviceOpenCL in bs[1..] ==> b != DeviceOpenCL && DeviceOpenCL in bs;
      VisitAllLists(build, requested, probe, c1, bs[1..], openCLWasProbed);
      VisitAllFrame(build, requested, probe, c1, bs[1..], b);
      assert c1.devices == c.devices + Shown(build, requested, openCLWasProbed, e.state, b);
    }
  }

  /** When every visited backend is already probed, a run changes nothing and lists the caches. */
  lemma {:induction false} VisitAllAllProbed(build: Build, requested: set<DeviceType>, probe: Prober, c: Call, bs: seq<Backend>)
    requires !c.escaped
    requires forall i :: 0 <= i < |bs| && Active(build, requested, bs[i]) ==> bs[i] in c.state.initialized
    ensures VisitAll(build, requested, probe, c, bs) == c.(devices := c.devices + Listed(build, requested, true, c.state, bs))
    decreases |bs|
  {
    if bs != [] {
      var c1 := Visit(build, requested, probe, c, bs[0]);
      assert c1 == c.(devices := c.devices + Shown(build, requested, true, c.state, bs[0]));
      VisitAllAllProbed(build, requested, probe, c1, bs[1..]);
    }
  }

  /** The OpenCL flag of `Listed` matters only when OpenCL is visited. */
  lemma {:induction false} ListedOpenCLFlag(build: Build, requested: set<DeviceType>, final: State, bs: seq<Backend>)
    requires !Active(build, requested, DeviceOpenCL) || DeviceOpenCL !in bs
    ensures Listed(build, requested, true, final, bs) == Listed(build, requested, false, final, bs)
    decreases |bs|
  {
    if bs != [] {
      assert DeviceOpenCL !in bs ==> DeviceOpenCL !in bs[1..];
      ListedOpenCLFlag(build, requested, final, bs[1..]);
    }
  }

  /** The final cache of a visited backend: its old cache, plus what its probe found if it was unprobed. */
  lemma {:induction false} VisitAllCache(build: Build, requested: set<DeviceType>, probe: Prober, c: Call, bs: seq<Backend>, b: Backend)
    requires !c.escaped && Distinct(bs) && b in bs && Active(build, requested, b)
    requires forall i :: 0 <= i < |bs| && Active(build, requested, bs[i]) && bs[i] !in c.state.initialized ==> probe(bs[i]).Completed?
    ensures VisitAll(build, requested, probe, c, bs).state.caches.Get(b)
      == c.state.caches.Get(b) + (if b in c.state.initialized then [] else probe(b).found)
    decreases |bs|
  {
    var c1 := Visit(build, requested, probe, c, bs[0]);
    if bs[0] == b {
      VisitAllFrame(build, requested, probe, c1, bs[1..], b);
    } else {
      assert b in bs[1..];
      VisitAllCache(build, requested, probe, c1, bs[1..], b);
    }
  }

  /** Not requesting backend `b` at all: a run that never reaches a visit of `b` is unaffected. */
  lemma {:induction false} VisitAllWithout(build: Build, requested: set<DeviceType>, probe: Prober, c: Call, bs: seq<Backend>, b: Backend)
    requires b !in bs
    ensures VisitAll(build, requested, probe, c, bs) == VisitAll(build, requested - {b}, probe, c, bs)
    decreases |bs|
  {
    if bs != [] {
      var c1 := Visit(build, requested, probe, c, bs[0]);
      assert c1 == Visit(build, requested - {b}, probe, c, bs[0]);
      VisitAllWithout(build, requested, probe, c1, bs[1..], b);
    }
  }

  /** An unrequested backend's cache is never read: growing it commutes with a run. */
  lemma {:induction false} VisitAllGrowCommutes(build: Build, requested: set<DeviceType>, probe: Prober, c: Call, bs: seq<Backend>, b: Backend, partial: seq<DeviceInfo>)
    requires b !in requested
    ensures GrowCall(VisitAll(build, requested, probe, c, bs), b, partial)
      == VisitAll(build, requested, probe, GrowCall(c, b, partial), bs)
    decreases |bs|
  {
    if bs != [] {
      var c1 := Visit(build, requested, probe, c, bs[0]);
      VisitGrowCommutes(build, requested, probe, c, bs[0], b, partial);
      VisitAllGrowCommutes(build, requested, probe, c1, bs[1..], b, partial);
    }
  }

  lemma VisitGrowCommutes(build: Build, requested: set<DeviceType>, probe: Prober, c: Call, x: Backend, b: Backend, partial: seq<DeviceInfo>)
    requires b !in requested
    ensures GrowCall(Visit(build, requested, probe, c, x), b, partial)
      == Visit(build, requested, probe, GrowCall(c, b, partial), x)
  {
    if !c.escaped && Active(build, requested, x) && x !in c.state.initialized {
      var g := c.state.caches.Get(b) + partial;
      var l := c.state.caches.Get(x) + probe(x).Appended();
      CachesWithCommute(c.state.caches, x, l, b, g);
    }
  }

  lemma CachesWithCommute(cs: Caches, x: Backend, l: seq<DeviceInfo>, b: Backend, g: seq<DeviceInfo>)
    requires x != b
    ensures cs.With(x, l).With(b, g) == cs.With(b, g).With(x, l)
  {
  }

  /** A fault in backend `b`'s probe, part way through a run that does not escape. */
  lemma {:induction false} VisitAllCrash(build: Build, requested: set<DeviceType>, probe: Prober, c: Call, bs: seq<Backend>, b: Backend)
    requires !c.escaped && Distinct(bs) && DeviceCpu !in bs
    requires b in bs && Active(build, requested, b) && b !in c.state.initialized && probe(b).Crashed?
    ensures VisitAll(build, requested, probe, c, bs)
      == GrowCall(VisitAll(build, requested - {b}, probe, c, bs), b, probe(b).partial)
    decreases |bs|
  {
    var rest := bs[1..];
    if bs[0] == b {
      assert b !in rest;
      assert Visit(build, requested, probe, c, b) == GrowCall(c, b, probe(b).partial);
      VisitAllWithout(build, requested, probe, GrowCall(c, b, probe(b).partial), rest, b);
      VisitAllGrowCommutes(build, requested - {b}, probe, c, rest, b, probe(b).partial);
    } else {
      assert b in rest;
      assert DeviceCpu !in rest;
      var c1 := Visit(build, requested, probe, c, bs[0]);
      assert c1 == Visit(build, requested - {b}, probe, c, bs[0]);
      assert forall i, j :: 0 <= i < j < |rest| ==> rest[i] == bs[i + 1] && rest[j] == bs[j + 1];
      VisitAllCrash(build, requested, probe, c1, rest, b);
    }
  }

  // ---------------------------------------------------------------------
  // What `available_devices` promises.

  /** A probed backend is not probed again: its probe's answer does not affect the call. */
  lemma CachedNotReprobed(build: Build, s: State, requested: set<DeviceType>, probe: Prober, b: Backend, alt: ProbeOutcome)
    requires b in s.initialized
    ensures Discover(build, s, requested, probe) == Discover(build, s, requested, Override(probe, b, alt))
    ensures Discover(build, s, requested, probe).state.caches.Get(b) == s.caches.Get(b)
    ensures b in Discover(build, s, requested, probe).state.initialized
  {
    DiscoverIsVisitAll(build, s, requested, probe);
    DiscoverIsVisitAll(build, s, requested, Override(probe, b, alt));
    VisitAllIgnoresProbed(build, requested, probe, Call(s, [], false), ProbeOrder, b, alt);
    VisitAllFrame(build, requested, probe, Call(s, [], false), ProbeOrder, b);
  }

  /** A backend that is not requested, or not compiled in, keeps its bit and its cache. */
  lemma UnrequestedUntouched(build: Build, s: State, requested: set<DeviceType>, probe: Prober, b: Backend)
    requires !Active(build, requested, b)
    ensures var e := Discover(build, s, requested, probe).state;
      (b in e.initialized <==> b in s.initialized) && e.caches.Get(b) == s.caches.Get(b)
  {
    DiscoverIsVisitAll(build, s, requested, probe);
    VisitAllFrame(build, requested, probe, Call(s, [], false), ProbeOrder, b);
  }

  /** After a crash-free call every requested, compiled-in backend has its bit set, and no other bit was set. */
  lemma CrashFreeSetsRequestedBits(build: Build, s: State, requested: set<DeviceType>, probe: Prober)
    requires CrashFree(build, s, requested, probe)
    ensures var call := Discover(build, s, requested, probe);
      && !call.escaped
      && call.state.initialized == s.initialized + requested * CompiledBackends(build)
  {
    DiscoverIsVisitAll(build, s, requested, probe);
    VisitAllSetsBits(build, requested, probe, Call(s, [], false), ProbeOrder);
    ProbeOrderDistinct();
    assert (set b | b in ProbeOrder && Active(build, requested, b)) == requested * CompiledBackends(build);
  }

  /**
   * The result of a crash-free call: the final caches of the requested
   * backends in the order CPU, OpenCL, CUDA, OptiX, Network, where OpenCL
   * contributes only when this call probed it.  Each such cache is the old
   * one, plus what the probe found when the backend was unprobed.
   */
  lemma CrashFreeResult(build: Build, s: State, requested: set<DeviceType>, probe: Prober)
    requires CrashFree(build, s, requested, probe)
    ensures var call := Discover(build, s, requested, probe);
      && call.devices == Listed(build, requested, DeviceOpenCL in s.initialized, call.state, ProbeOrder)
      && forall b: Backend :: Active(build, requested, b) ==>
           call.state.caches.Get(b) == s.caches.Get(b) + (if b in s.initialized then [] else probe(b).found)
  {
    DiscoverIsVisitAll(build, s, requested, probe);
    ProbeOrderDistinct();
    var c0 := Call(s, [], false);
    VisitAllLists(build, requested, probe, c0, ProbeOrder, DeviceOpenCL in s.initialized);
    forall b: Backend | Active(build, requested, b)
      ensures Discover(build, s, requested, probe).state.caches.Get(b)
        == s.caches.Get(b) + (if b in s.initialized then [] else probe(b).found)
    {
      VisitAllCache(build, requested, probe, c0, ProbeOrder, b);
    }
  }

  /** With its bit already set, OpenCL contributes nothing: the call is the same as one without OpenCL. */
  lemma OpenCLOnlyOnProbingCall(build: Build, s: State, requested: set<DeviceType>, probe: Prober)
    requires DeviceOpenCL in s.initialized
    ensures Discover(build, s, requested, probe) == Discover(build, s, requested - {DeviceOpenCL}, probe)
  {
    DiscoverIsVisitAll(build, s, requested, probe);
    DiscoverIsVisitAll(build, s, requested - {DeviceOpenCL}, probe);
    OpenCLProbedIgnored(build, requested, probe, Call(s, [], false), ProbeOrder);
  }

  lemma {:induction false} OpenCLProbedIgnored(build: Build, requested: set<DeviceType>, probe: Prober, c: Call, bs: seq<Backend>)
    requires DeviceOpenCL in c.state.initialized
    ensures VisitAll(build, requested, probe, c, bs) == VisitAll(build, requested - {DeviceOpenCL}, probe, c, bs)
    decreases |bs|
  {
    if bs != [] {
      var c1 := Visit(build, requested, probe, c, bs[0]);
      assert c1 == Visit(build, requested - {DeviceOpenCL}, probe, c, bs[0]);
      OpenCLProbedIgnored(build, requested, probe, c1, bs[1..]);
    }
  }

  /**
   * A fault in a non-CPU backend's probe (with the CPU block not faulting):
   * the call behaves exactly as if that backend had not been requested,
   * except that the devices its probe appended before the fault stay in its
   * cache.  Its bit stays clear, so the next call probes it again.
   */
  lemma CrashIsolated(build: Build, s: State, requested: set<DeviceType>, probe: Prober, b: Backend)
    requires b != DeviceCpu && Active(build, requested, b) && b !in s.initialized && probe(b).Crashed?
    requires !(Active(build, requested, DeviceCpu) && DeviceCpu !in s.initialized && probe(DeviceCpu).Crashed?)
    ensures Discover(build, s, requested, probe)
      == GrowCall(Discover(build, s, requested - {b}, probe), b, probe(b).partial)
    ensures b !in Discover(build, s, requested, probe).state.initialized
  {
    DiscoverIsVisitAll(build, s, requested, probe);
    DiscoverIsVisitAll(build, s, requested - {b}, probe);
    ProbeOrderDistinct();
    var c0 := Call(s, [], false);
    var c1 := Visit(build, requested, probe, c0, DeviceCpu);
    assert c1 == Visit(build, requested - {b}, probe, c0, DeviceCpu);
    var rest := ProbeOrder[1..];
    assert rest == [DeviceOpenCL, DeviceCuda, DeviceOptix, DeviceNetwork];
    assert VisitAll(build, requested, probe, c0, ProbeOrder) == VisitAll(build, requested, probe, c1, rest);
    assert VisitAll(build, requested - {b}, probe, c0, ProbeOrder) == VisitAll(build, requested - {b}, probe, c1, rest);
    VisitAllCrash(build, requested, probe, c1, rest, b);
    VisitAllFrame(build, requested - {b}, probe, c0, ProbeOrder, b);
  }

  /**
   * A second call with the same mask after a crash-free one probes nothing
   * (its probe outcomes do not matter), changes nothing, and lists the
   * caches; it repeats the first result unless the first call was the one
   * that probed OpenCL.
   */
  lemma RepeatedCall(build: Build, s: State, requested: set<DeviceType>, probe: Prober, probe2: Prober)
    requires CrashFree(build, s, requested, probe)
    ensures var first := Discover(build, s, requested, probe);
      var second := Discover(build, first.state, requested, probe2);
      && second.state == first.state && !second.escaped
      && second.devices == Listed(build, requested, true, first.state, ProbeOrder)
      && (!Active(build, requested, DeviceOpenCL) || DeviceOpenCL in s.initialized ==> second.devices == first.devices)
  {
    var first := Discover(build, s, requested, probe);
    CrashFreeSetsRequestedBits(build, s, requested, probe);
    CrashFreeResult(build, s, requested, probe);
    DiscoverIsVisitAll(build, first.state, requested, probe2);
    ProbeOrderDistinct();
    VisitAllAllProbed(build, requested, probe2, Call(first.state, [], false), ProbeOrder);
    if !Active(build, requested, DeviceOpenCL) {
      ListedOpenCLFlag(build, requested, first.state, ProbeOrder);
    }
  }

  /**
   * After `free_memory`, a crash-free call probes every requested backend
   * once: each cache is exactly what its probe found, and the result lists
   * them in probe order.
   */
  lemma ReprobeAfterInvalidation(build: Build, requested: set<DeviceType>, probe: Prober)
    requires CrashFree(build, Uninitialized, requested, probe)
    ensures var call := Discover(build, Uninitialized, requested, probe);
      && call.state.initialized == requested * CompiledBackends(build)
      && (forall b: Backend :: Active(build, requested, b) ==> call.state.caches.Get(b) == probe(b).found)
      && (forall b: Backend :: !Active(build, requested, b) ==> call.state.caches.Get(b) == [])
      && call.devices == Listed(build, requested, false, call.state, ProbeOrder)
  {
    var call := Discover(build, Uninitialized, requested, probe);
    CrashFreeSetsRequestedBits(build, Uninitialized, requested, probe);
    assert Uninitialized.initialized + requested * CompiledBackends(build) == requested * CompiledBackends(build);
    CrashFreeResult(build, Uninitialized, requested, probe);
    forall b: Backend | Active(build, requested, b)
      ensures call.state.caches.Get(b) == probe(b).found
    {
      assert call.state.caches.Get(b) == Uninitialized.caches.Get(b) + probe(b).found;
      assert Uninitialized.caches.Get(b) + probe(b).found == probe(b).found;
    }
    forall b: Backend | !Active(build, requested, b)
      ensures call.state.caches.Get(b) == []
    {
      UnrequestedUntouched(build, Uninitialized, requested, probe, b);
    }
  }

  // ---------------------------------------------------------------------
  // Requesting fewer backends gives a subsequence of the devices.

  /** The elements of `s` whose flag in `keep` is set, in order. */
  function Select<T>(s: seq<T>, keep: seq<bool>): seq<T>
    requires |keep| == |s|
  {
    if s == [] then [] else (if keep[0] then [s[0]] else []) + Select(s[1..], keep[1..])
  }

  ghost predicate IsSubsequence<T>(a: seq<T>, b: seq<T>) {
    exists keep: seq<bool> :: |keep| == |b| && Select(b, keep) == a
  }

  lemma {:induction false} SelectConcat<T>(s1: seq<T>, k1: seq<bool>, s2: seq<T>, k2: seq<bool>)
    requires |k1| == |s1| && |k2| == |s2|
    ensures Select(s1 + s2, k1 + k2) == Select(s1, k1) + Select(s2, k2)
    decreases |s1|
  {
    if s1 == [] {
      assert s1 + s2 == s2 && k1 + k2 == k2;
    } else {
      var head := if k1[0] then [s1[0]] else [];
      assert (s1 + s2)[0] == s1[0] && (k1 + k2)[0] == k1[0];
      assert (s1 + s2)[1..] == s1[1..] + s2;
      assert (k1 + k2)[1..] == k1[1..] + k2;
      assert Select(s1 + s2, k1 + k2) == head + Select(s1[1..] + s2, k1[1..] + k2);
      assert Select(s1, k1) == head + Select(s1[1..], k1[1..]);
      SelectConcat(s1[1..], k1[1..], s2, k2);
      assert head + (Select(s1[1..], k1[1..]) + Select(s2, k2))
          == (head + Select(s1[1..], k1[1..])) + Select(s2, k2);
    }
  }

  lemma {:induction false} SelectUniform<T>(s: seq<T>, flag: bool)
    ensures Select(s, seq(|s|, _ => flag)) == if flag then s else []
    decreases |s|
  {
    if s != [] {
      assert seq(|s|, _ => flag)[1..] == seq(|s| - 1, _ => flag);
      SelectUniform(s[1..], flag);
    }
  }

  lemma {:induction false} ListedSubsequence(build: Build, m1: set<DeviceType>, m2: set<DeviceType>, flag: bool, e1: State, e2: State, bs: seq<Backend>)
    returns (keep: seq<bool>)
    requires m1 <= m2
    requires forall b: Backend :: b in bs && Active(build, m1, b) ==> e1.caches.Get(b) == e2.caches.Get(b)
    ensures |keep| == |Listed(build, m2, flag, e2, bs)|
    ensures Select(Listed(build, m2, flag, e2, bs), keep) == Listed(build, m1, flag, e1, bs)
    decreases |bs|
  {
    if bs == [] {
      keep := [];
    } else {
      var b := bs[0];
      var l2 := Shown(build, m2, flag, e2, b);
      var l1 := Shown(build, m1, flag, e1, b);
      assert forall x: Backend :: x in bs[1..] ==> x in bs;
      var rest := ListedSubsequence(build, m1, m2, flag, e1, e2, bs[1..]);
      var k := seq(|l2|, _ => l1 != []);
      SelectUniform(l2, l1 != []);
      SelectConcat(l2, k, Listed(build, m2, flag, e2, bs[1..]), rest);
      keep := k + rest;
    }
  }

  /** For crash-free calls on the same registry, requesting a subset of the backends yields a subsequence. */
  lemma CrashFreeSubmaskSubsequence(build: Build, s: State, m1: set<DeviceType>, m2: set<DeviceType>, probe: Prober)
    requires m1 <= m2 && CrashFree(build, s, m2, probe)
    ensures IsSubsequence(Discover(build, s, m1, probe).devices, Discover(build, s, m2, probe).devices)
  {
    var e1 := Discover(build, s, m1, probe).state;
    var e2 := Discover(build, s, m2, probe).state;
    CrashFreeResult(build, s, m1, probe);
    CrashFreeResult(build, s, m2, probe);
    var keep := ListedSubsequence(build, m1, m2, DeviceOpenCL in s.initialized, e1, e2, ProbeOrder);
  }

  /** The CPU block faults: the one fault that leaves the call. */
  predicate CpuFaults(build: Build, s: State, requested: set<DeviceType>, probe: Prober) {
    Active(build, requested, DeviceCpu) && DeviceCpu !in s.initialized && probe(DeviceCpu).Crashed?
  }

  /** A call ends in an escaping fault exactly when its CPU block faults. */
  lemma EscapesOnlyFromCpu(build: Build, s: State, requested: set<DeviceType>, probe: Prober)
    ensures Discover(build, s, requested, probe).escaped <==> CpuFaults(build, s, requested, probe)
  {
  }

  /** The non-CPU backends whose probe this call would run and which fault. */
  function Faulting(build: Build, s: State, requested: set<DeviceType>, probe: Prober): set<DeviceType> {
    set b | b in ProbeOrder[1..] && Active(build, requested, b) && b !in s.initialized && probe(b).Crashed?
  }

  /** Dropping any of the faulting non-CPU backends from the mask leaves the devices and the escape flag as they are. */
  lemma {:induction false} DropFaulting(build: Build, s: State, requested: set<DeviceType>, probe: Prober, dropped: set<DeviceType>)
    requires dropped <= Faulting(build, s, requested, probe)
    requires !CpuFaults(build, s, requested, probe)
    ensures Discover(build, s, requested, probe).devices == Discover(build, s, requested - dropped, probe).devices
    ensures Discover(build, s, requested, probe).escaped == Discover(build, s, requested - dropped, probe).escaped
    decreases |dropped|
  {
    if dropped == {} {
      assert requested - dropped == requested;
    } else {
      var b :| b in dropped;
      var others := dropped - {b};
      assert b in ProbeOrder[1..] && Active(build, requested, b) && b !in s.initialized && probe(b).Crashed?;
      assert Active(build, requested - others, b) && b != DeviceCpu;
      assert !CpuFaults(build, s, requested - others, probe);
      DropFaulting(build, s, requested, probe, others);
      DropOneFaulting(build, s, requested - others, probe, b);
      assert requested - others - {b} == requested - dropped;
    }
  }

  lemma DropOneFaulting(build: Build, s: State, requested: set<DeviceType>, probe: Prober, b: Backend)
    requires b != DeviceCpu && Active(build, requested, b) && b !in s.initialized && probe(b).Crashed?
    requires !CpuFaults(build, s, requested, probe)
    ensures Discover(build, s, requested, probe).devices == Discover(build, s, requested - {b}, probe).devices
    ensures Discover(build, s, requested, probe).escaped == Discover(build, s, requested - {b}, probe).escaped
  {
    CrashIsolated(build, s, requested, probe, b);
  }

  /** Once the faulting non-CPU backends are dropped, a call whose CPU block does not fault is crash-free. */
  lemma WithoutFaultingIsCrashFree(build: Build, s: State, requested: set<DeviceType>, probe: Prober)
    requires !CpuFaults(build, s, requested, probe)
    ensures CrashFree(build, s, requested - Faulting(build, s, requested, probe), probe)
  {
    var f := Faulting(build, s, requested, probe);
    forall b: Backend | Active(build, requested - f, b) && b !in s.initialized
      ensures probe(b).Completed?
    {
      if b != DeviceCpu {
        assert b in ProbeOrder[1..];
      }
    }
  }

  /**
   * On the same registry, a call for a subset of the backends lists a
   * subsequence of the devices of a call for the whole set, whenever the
   * latter returns (its CPU block does not fault); the former then returns
   * too.
   */
  lemma SubmaskGivesSubsequence(build: Build, s: State, m1: set<DeviceType>, m2: set<DeviceType>, probe: Prober)
    requires m1 <= m2 && !Discover(build, s, m2, probe).escaped
    ensures !Discover(build, s, m1, probe).escaped
    ensures IsSubsequence(Discover(build, s, m1, probe).devices, Discover(build, s, m2, probe).devices)
  {
    EscapesOnlyFromCpu(build, s, m2, probe);
    EscapesOnlyFromCpu(build, s, m1, probe);
    var f1 := Faulting(build, s, m1, probe);
    var f2 := Faulting(build, s, m2, probe);
    DropFaulting(build, s, m1, probe, f1);
    DropFaulting(build, s, m2, probe, f2);
    WithoutFaultingIsCrashFree(build, s, m2, probe);
    assert m1 - f1 <= m2 - f2;
    CrashFreeSubmaskSubsequence(build, s, m1 - f1, m2 - f2, probe);
  }
}
