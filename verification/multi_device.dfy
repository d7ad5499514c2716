// `get_multi_device`: one logical device built from several sub-devices.

module MultiDevice {
  import opened Wrappers
  import opened DeviceTypes

  /** The four capability flags a device descriptor carries. */
  datatype Capability = HalfImages | VolumeDecoupled | Osl | Profiling

  predicate Has(d: DeviceInfo, cap: Capability) {
    match cap
    case HalfImages => d.hasHalfImages
    case VolumeDecoupled => d.hasVolumeDecoupled
    case Osl => d.hasOsl
    case Profiling => d.hasProfiling
  }

  /** Every device of `ms` has `cap`. */
  predicate AllHave(ms: seq<DeviceInfo>, cap: Capability) {
    forall i :: 0 <= i < |ms| ==> Has(ms[i], cap)
  }

  /**
   * The render threads a CPU keeps when it joins `n` sub-devices in
   * background mode: the requested count (the system's when 0) less one per
   * other device, floored at 0.
   */
  function ReducedCpuThreads(threads: int, systemThreads: int, n: nat): (t: int)
    ensures var orig := if threads != 0 then threads else systemThreads;
      t >= 0 && t >= orig - (n - 1) && (t == 0 || t == orig - (n - 1))
  {
    var orig := if threads != 0 then threads else systemThreads;
    if orig - (n - 1) > 0 then orig - (n - 1) else 0
  }

  /**
   * What the composer adds for sub-device `d` out of `n`: a non-CPU device
   * unchanged; a CPU only in background mode, and only when it keeps at
   * least one thread, with that thread count.
   */
  function Member(d: DeviceInfo, n: nat, threads: int, background: bool, systemThreads: int): Option<DeviceInfo> {
    if d.deviceType != DeviceCpu then Some(d)
    else if background && ReducedCpuThreads(threads, systemThreads, n) >= 1 then
      Some(d.(cpuThreads := ReducedCpuThreads(threads, systemThreads, n)))
    else None
  }

  function Contribution(o: Option<DeviceInfo>): seq<DeviceInfo> {
    if o.Some? then [o.value] else []
  }

  /** The members the composer collects from `subs`, in order. */
  function Members(subs: seq<DeviceInfo>, n: nat, threads: int, background: bool, systemThreads: int): seq<DeviceInfo>
    decreases |subs|
  {
    if subs == [] then []
    else Members(subs[..|subs| - 1], n, threads, background, systemThreads)
         + Contribution(Member(subs[|subs| - 1], n, threads, background, systemThreads))
  }

  /** The non-CPU devices of `s`, in order. */
  function NonCpu(s: seq<DeviceInfo>): seq<DeviceInfo>
    decreases |s|
  {
    if s == [] then []
    else NonCpu(s[..|s| - 1]) + (if s[|s| - 1].deviceType != DeviceCpu then [s[|s| - 1]] else [])
  }

  /** `s` with every CPU device given `t` threads. */
  function WithCpuThreads(s: seq<DeviceInfo>, t: int): seq<DeviceInfo>
    decreases |s|
  {
    if s == [] then []
    else WithCpuThreads(s[..|s| - 1], t)
         + [if s[|s| - 1].deviceType == DeviceCpu then s[|s| - 1].(cpuThreads := t) else s[|s| - 1]]
  }

  /**
   * `get_multi_device`: a single sub-device is returned unchanged; several
   * become one `MULTI` device whose members are collected as `Members` says
   * and whose every capability flag holds exactly when all members have it.
   */
  method GetMultiDevice(subdevices: seq<DeviceInfo>, threads: int, background: bool, systemThreads: int)
    returns (info: DeviceInfo)
    requires |subdevices| > 0
    ensures |subdevices| == 1 ==> info == subdevices[0]
    ensures |subdevices| > 1 ==>
      && info.deviceType == DeviceMulti && info.id == "MULTI" && info.description == "Multi Device"
      && info.num == 0
      && info.cpuThreads == DefaultInfo.cpuThreads && info.displayDevice == DefaultInfo.displayDevice
      && info.multiDevices == Members(subdevices, |subdevices|, threads, background, systemThreads)
      && forall cap :: Has(info, cap) <==> AllHave(info.multiDevices, cap)
  {
    if |subdevices| == 1 {
      return subdevices[0];
    }
    var n := |subdevices|;
    info := DefaultInfo.(deviceType := DeviceMulti, id := "MULTI", description := "Multi Device", num := 0,
      hasHalfImages := true, hasVolumeDecoupled := true, hasOsl := true, hasProfiling := true);

    var i := 0;
    while i < n
      invariant 0 <= i <= n
      invariant info.deviceType == DeviceMulti && info.id == "MULTI" && info.description == "Multi Device"
      invariant info.num == 0 && info.cpuThreads == DefaultInfo.cpuThreads && info.displayDevice == DefaultInfo.displayDevice
      invariant info.multiDevices == Members(subdevices[..i], n, threads, background, systemThreads)
      invariant FlagsAgree(info)
    {
      MembersStep(subdevices, i, n, threads, background, systemThreads);
      JoinStepKeepsFlagsAgree(info, Member(subdevices[i], n, threads, background, systemThreads));
      info := AddSubdevice(info, subdevices[i], n, threads, background, systemThreads);
      i := i + 1;
    }
    assert subdevices[..n] == subdevices;
    FlagsAgreeHas(info);
  }

  /** Each capability flag of `info` holds exactly when every member has it. */
  predicate FlagsAgree(info: DeviceInfo) {
    && info.hasHalfImages == AllHave(info.multiDevices, HalfImages)
    && info.hasVolumeDecoupled == AllHave(info.multiDevices, VolumeDecoupled)
    && info.hasOsl == AllHave(info.multiDevices, Osl)
    && info.hasProfiling == AllHave(info.multiDevices, Profiling)
  }

  lemma FlagsAgreeHas(info: DeviceInfo)
    requires FlagsAgree(info)
    ensures forall cap :: Has(info, cap) <==> AllHave(info.multiDevices, cap)
  {
    forall cap ensures Has(info, cap) <==> AllHave(info.multiDevices, cap) {
    }
  }

  /**
   * One pass of the composer's loop: `device` joins as `Member` says
   * (`JoinStep` of that), each capability flag ANDed with the member's.
   */
  method AddSubdevice(info: DeviceInfo, device: DeviceInfo, n: nat, threads: int, background: bool, systemThreads: int)
    returns (next: DeviceInfo)
    requires n > 1
    ensures next == JoinStep(info, Member(device, n, threads, background, systemThreads))
  {
    var member := JoiningMember(device, n, threads, background, systemThreads);
    if member.None? {
      return info;
    }
    var m := member.value;
    next := info.(
      multiDevices := info.multiDevices + [m],
      hasHalfImages := info.hasHalfImages && m.hasHalfImages,
      hasVolumeDecoupled := info.hasVolumeDecoupled && m.hasVolumeDecoupled,
      hasOsl := info.hasOsl && m.hasOsl,
      hasProfiling := info.hasProfiling && m.hasProfiling);
  }

  /**
   * The loop's admission test for one sub-device: a CPU among several joins
   * only in background mode, with its thread count cut to leave one thread
   * per other device, and is skipped when no thread is left.
   */
  method JoiningMember(device: DeviceInfo, n: nat, threads: int, background: bool, systemThreads: int)
    returns (member: Option<DeviceInfo>)
    requires n > 1
    ensures member == Member(device, n, threads, background, systemThreads)
  {
    member := Some(device);
    if device.deviceType == DeviceCpu && n > 1 {
      member := None;
      if background {
        var origCpuThreads := if threads != 0 then threads else systemThreads;
        var cpuThreads := if origCpuThreads - (n - 1) > 0 then origCpuThreads - (n - 1) else 0;
        if cpuThreads >= 1 {
          member := Some(device.(cpuThreads := cpuThreads));
        }
      }
    }
  }

  /** `info` after member `o` (if any) joins: appended, each capability flag ANDed with its own. */
  function JoinStep(info: DeviceInfo, o: Option<DeviceInfo>): DeviceInfo {
    if o.None? then info
    else
      info.(
        multiDevices := info.multiDevices + [o.value],
        hasHalfImages := info.hasHalfImages && o.value.hasHalfImages,
        hasVolumeDecoupled := info.hasVolumeDecoupled && o.value.hasVolumeDecoupled,
        hasOsl := info.hasOsl && o.value.hasOsl,
        hasProfiling := info.hasProfiling && o.value.hasProfiling)
  }

  /**
   * A join appends the member's contribution, leaves the header alone and
   * keeps every capability flag equal to "all members have it".
   */
  lemma JoinStepKeepsFlagsAgree(info: DeviceInfo, o: Option<DeviceInfo>)
    ensures var next := JoinStep(info, o);
      && next.multiDevices == info.multiDevices + Contribution(o)
      && next.deviceType == info.deviceType && next.id == info.id && next.description == info.description
      && next.num == info.num && next.cpuThreads == info.cpuThreads && next.displayDevice == info.displayDevice
      && (FlagsAgree(info) ==> FlagsAgree(next))
  {
    if o.None? {
      assert info.multiDevices + [] == info.multiDevices;
    } else {
      AllHaveAppend(info.multiDevices, o.value, HalfImages);
      AllHaveAppend(info.multiDevices, o.value, VolumeDecoupled);
      AllHaveAppend(info.multiDevices, o.value, Osl);
      AllHaveAppend(info.multiDevices, o.value, Profiling);
    }
  }

  /** Taking one more sub-device adds that device's contribution at the end. */
  lemma MembersStep(subs: seq<DeviceInfo>, i: nat, n: nat, threads: int, background: bool, systemThreads: int)
    requires i < |subs|
    ensures Members(subs[..i + 1], n, threads, background, systemThreads)
         == Members(subs[..i], n, threads, background, systemThreads)
            + Contribution(Member(subs[i], n, threads, background, systemThreads))
  {
    var s := subs[..i + 1];
    assert s[..|s| - 1] == subs[..i];
    assert s[|s| - 1] == subs[i];
  }

  /** Appending `d` keeps a capability shared by all exactly when `d` has it too. */
  lemma AllHaveAppend(ms: seq<DeviceInfo>, d: DeviceInfo, cap: Capability)
    ensures AllHave(ms + [d], cap) == (AllHave(ms, cap) && Has(d, cap))
  {
    assert forall i :: 0 <= i < |ms| ==> (ms + [d])[i] == ms[i];
    assert (ms + [d])[|ms|] == d;
  }

  /** Non-CPU sub-devices are always members, unchanged and in input order. */
  lemma {:induction false} NonCpuAlwaysIncluded(subs: seq<DeviceInfo>, n: nat, threads: int, background: bool, systemThreads: int)
    ensures NonCpu(Members(subs, n, threads, background, systemThreads)) == NonCpu(subs)
    decreases |subs|
  {
    if subs != [] {
      var init := subs[..|subs| - 1];
      var ms := Members(init, n, threads, background, systemThreads);
      var c := Contribution(Member(subs[|subs| - 1], n, threads, background, systemThreads));
      NonCpuAlwaysIncluded(init, n, threads, background, systemThreads);
      NonCpuConcat(ms, c);
      if c != [] {
        assert NonCpu(c) == NonCpu([] + c);
      }
    }
  }

  lemma {:induction false} NonCpuConcat(a: seq<DeviceInfo>, b: seq<DeviceInfo>)
    ensures NonCpu(a + b) == NonCpu(a) + NonCpu(b)
    decreases |b|
  {
    if b == [] {
      assert a + b == a;
    } else {
      assert (a + b)[..|a + b| - 1] == a + b[..|b| - 1];
      NonCpuConcat(a, b[..|b| - 1]);
    }
  }

  /** In interactive mode no CPU is a member: the members are exactly the non-CPU sub-devices. */
  lemma {:induction false} InteractiveExcludesCpu(subs: seq<DeviceInfo>, n: nat, threads: int, systemThreads: int)
    ensures Members(subs, n, threads, false, systemThreads) == NonCpu(subs)
    ensures forall i :: 0 <= i < |Members(subs, n, threads, false, systemThreads)| ==>
      Members(subs, n, threads, false, systemThreads)[i].deviceType != DeviceCpu
    decreases |subs|
  {
    if subs != [] {
      InteractiveExcludesCpu(subs[..|subs| - 1], n, threads, systemThreads);
    }
    NonCpuHasNoCpu(subs);
  }

  lemma {:induction false} NonCpuHasNoCpu(s: seq<DeviceInfo>)
    ensures forall i :: 0 <= i < |NonCpu(s)| ==> NonCpu(s)[i].deviceType != DeviceCpu
    decreases |s|
  {
    if s != [] {
      NonCpuHasNoCpu(s[..|s| - 1]);
    }
  }

  /**
   * In background mode a CPU is a member, with the reduced thread count,
   * exactly when that count is at least 1; otherwise the CPUs are dropped.
   */
  lemma {:induction false} BackgroundCpuThreads(subs: seq<DeviceInfo>, n: nat, threads: int, systemThreads: int)
    ensures var t := ReducedCpuThreads(threads, systemThreads, n);
      Members(subs, n, threads, true, systemThreads)
        == if t >= 1 then WithCpuThreads(subs, t) else NonCpu(subs)
    decreases |subs|
  {
    if subs != [] {
      BackgroundCpuThreads(subs[..|subs| - 1], n, threads, systemThreads);
    }
  }
}
