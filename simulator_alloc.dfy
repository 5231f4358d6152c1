/**
 * iOS simulator allocation (SimulatorAllocDriver.js): pick a free simulator that
 * matches the query, or create one from a taken prototype, register it, and
 * later release, shut down or unregister it.
 *
 * The device registry is used here through its interface only. It is modelled
 * as two sets: the devices marked busy, and the devices this session
 * registered. The cross-process file lock is left out, since only the
 * sequential effect of each call is modelled. Simulator tooling (listing,
 * creating, launching, shutting down, the screenshot workaround) is recorded
 * as effects, and its answers are parameters.
 */
module SimulatorAlloc {
  import opened Wrappers

  /** One simulator from the query results: its udid and `os.identifier`, if any. */
  datatype SimDevice = SimDevice(udid: string, osIdentifier: Option<string>)

  datatype DeviceConfig = DeviceConfig(deviceType: string, bootArgs: Option<string>, headless: bool)

  datatype Cookie = Cookie(udid: string)

  datatype AllocError =
    | NoDevicesListed      // `_queryDevices`: the query found nothing
    | FailedToFindDevice   // `allocate`: the registry returned no udid
    | MissingLaunchInfo    // `postAllocate` on a udid `allocate` never recorded
    | LaunchFailed(message: string)

  datatype SimEffect =
    | Created(prototype: Option<SimDevice>, udid: string)
    | ScreenshotWorkaround(udid: string)
    | Launched(udid: string, config: DeviceConfig)
    | ShutdownAttempted(udid: string)

  /** The device registry, with the sequential semantics of each locked call. */
  class DeviceRegistry {
    var busy: set<string>
    var session: set<string>

    /** Only non-empty udids are ever registered. */
    predicate Valid()
      reads this
    {
      "" !in busy && "" !in session
    }

    constructor ()
      ensures Valid() && busy == {} && session == {}
    {
      busy := {};
      session := {};
    }

    method Reset()
      modifies this
      ensures Valid() && busy == {} && session == {}
    {
      busy := {};
      session := {};
    }

    /** `getTakenDevicesSync` */
    function TakenDevices(): set<string>
      reads this
    {
      busy
    }

    /** `registerDevice`, given the udid its callback produced: a falsy udid is not recorded. */
    method RegisterDevice(udid: string) returns (r: string)
      requires Valid()
      modifies this
      ensures Valid() && r == udid
      ensures udid == "" ==> busy == old(busy) && session == old(session)
      ensures udid != "" ==> busy == old(busy) + {udid} && session == old(session) + {udid}
    {
      if udid != "" {
        busy := busy + {udid};
        session := session + {udid};
      }
      r := udid;
    }

    /** `releaseDevice`: no longer busy, still one of this session's devices. */
    method ReleaseDevice(udid: string)
      requires Valid()
      modifies this
      ensures Valid() && busy == old(busy) - {udid} && session == old(session)
    {
      busy := busy - {udid};
    }

    method UnregisterDevice(udid: string)
      requires Valid()
      modifies this
      ensures Valid() && busy == old(busy) - {udid} && session == old(session) - {udid}
    {
      busy := busy - {udid};
      session := session - {udid};
    }

    method UnregisterSessionDevices()
      requires Valid()
      modifies this
      ensures Valid() && busy == old(busy) - old(session) && session == {}
    {
      busy := busy - session;
      session := {};
    }
  }

  /** One side of `_.groupBy(searchResults, ...)`: the devices whose udid is (or is not) in the snapshot, in order. */
  function Partition(results: seq<SimDevice>, snapshot: set<string>, taken: bool): (r: seq<SimDevice>)
    ensures forall d :: d in r <==> d in results && (d.udid in snapshot) == taken
    ensures |r| <= |results|
  {
    if |results| == 0 then []
    else
      var rest := Partition(results[1..], snapshot, taken);
      if (results[0].udid in snapshot) == taken then [results[0]] + rest else rest
  }

  /** Every result lands in exactly one of the two groups. */
  lemma {:induction false} PartitionSizes(results: seq<SimDevice>, snapshot: set<string>)
    ensures |Partition(results, snapshot, true)| + |Partition(results, snapshot, false)| == |results|
    decreases |results|
  {
    if |results| > 0 {
      PartitionSizes(results[1..], snapshot);
    }
  }

  /** `_.get(taken, '0.os.identifier')` */
  function TargetOS(taken: seq<SimDevice>): Option<string> {
    if |taken| == 0 then None else taken[0].osIdentifier
  }

  /**
   * The predicate `_.filter` receives. Without a target OS it is `undefined`, and
   * lodash keeps every device. An empty identifier is the string `""`, which lodash
   * reads as a property path that no device has, so nothing is kept. Otherwise it
   * is `{os: {identifier}}`, a partial match.
   */
  predicate Matches(target: Option<string>, d: SimDevice) {
    match target
    case None => true
    case Some(os) => os != "" && d.osIdentifier == Some(os)
  }

  function Narrow(devices: seq<SimDevice>, target: Option<string>): (r: seq<SimDevice>)
    ensures forall d :: d in r <==> d in devices && Matches(target, d)
    ensures target.None? ==> r == devices
    ensures target == Some("") ==> r == []
    ensures |devices| > 0 && Matches(target, devices[0]) ==> |r| > 0 && r[0] == devices[0]
  {
    if |devices| == 0 then []
    else
      var rest := Narrow(devices[1..], target);
      if Matches(target, devices[0]) then [devices[0]] + rest else rest
  }

  /** `_.groupBy` keeps the query order: grouping a concatenation concatenates the groups. */
  lemma {:induction false} PartitionAppend(s: seq<SimDevice>, t: seq<SimDevice>, snapshot: set<string>, taken: bool)
    ensures Partition(s + t, snapshot, taken) == Partition(s, snapshot, taken) + Partition(t, snapshot, taken)
    decreases |s|
  {
    if |s| == 0 {
      assert s + t == t;
    } else {
      assert (s + t)[1..] == s[1..] + t;
      PartitionAppend(s[1..], t, snapshot, taken);
    }
  }

  /** `_.filter` keeps the order: filtering a concatenation concatenates the results. */
  lemma {:induction false} NarrowAppend(s: seq<SimDevice>, t: seq<SimDevice>, target: Option<string>)
    ensures Narrow(s + t, target) == Narrow(s, target) + Narrow(t, target)
    decreases |s|
  {
    if |s| == 0 {
      assert s + t == t;
    } else {
      assert (s + t)[1..] == s[1..] + t;
      NarrowAppend(s[1..], t, target);
    }
  }

  /** Grouping then narrowing, one device at a time: the first device is kept exactly when it is free and matches. */
  lemma FreeStep(results: seq<SimDevice>, snapshot: set<string>, target: Option<string>)
    requires |results| > 0
    ensures var g := Narrow(Partition(results[1..], snapshot, false), target);
      Narrow(Partition(results, snapshot, false), target) ==
        if results[0].udid !in snapshot && Matches(target, results[0]) then [results[0]] + g else g
  {
    var p := Partition(results[1..], snapshot, false);
    if results[0].udid !in snapshot {
      assert Partition(results, snapshot, false) == [results[0]] + p;
      assert ([results[0]] + p)[1..] == p;
    }
  }

  /** A device `_findOrCreateDevice` may reuse: not in the snapshot, and of the target OS. */
  predicate Reusable(d: SimDevice, snapshot: set<string>, target: Option<string>) {
    d.udid !in snapshot && Matches(target, d)
  }

  /** The index of the first reusable listed device, `|results|` when there is none. */
  function FirstReusable(results: seq<SimDevice>, snapshot: set<string>, target: Option<string>): (i: nat)
    ensures i <= |results|
    ensures i < |results| ==> Reusable(results[i], snapshot, target)
    ensures forall j :: 0 <= j < i ==> !Reusable(results[j], snapshot, target)
    decreases |results|
  {
    if |results| == 0 then 0
    else if Reusable(results[0], snapshot, target) then 0
    else
      var i := FirstReusable(results[1..], snapshot, target);
      assert forall j :: 1 <= j < i + 1 ==> results[j] == results[1..][j - 1];
      i + 1
  }

  /**
   * The first free device after narrowing is the lowest-index listed device that
   * is not in the snapshot and matches the target OS.
   */
  lemma {:induction false} FirstFree(results: seq<SimDevice>, snapshot: set<string>, target: Option<string>)
    ensures var f := Narrow(Partition(results, snapshot, false), target);
      f != [] ==> FirstReusable(results, snapshot, target) < |results| &&
                  f[0] == results[FirstReusable(results, snapshot, target)]
    decreases |results|
  {
    if |results| > 0 {
      var tail := results[1..];
      FreeStep(results, snapshot, target);
      if !Reusable(results[0], snapshot, target) {
        FirstFree(tail, snapshot, target);
        var k := FirstReusable(tail, snapshot, target);
        assert FirstReusable(results, snapshot, target) == k + 1;
        if k < |tail| {
          assert results[k + 1] == tail[k];
        }
      }
    }
  }

  datatype Groups = Groups(taken: seq<SimDevice>, free: seq<SimDevice>)

  /** `_groupDevicesByStatus`, given the query results and the registry snapshot. */
  function GroupDevicesByStatus(results: seq<SimDevice>, snapshot: set<string>): (r: Groups)
    ensures forall d :: d in r.taken ==> d in results && d.udid in snapshot
    ensures forall d :: d in r.free ==> d in results && d.udid !in snapshot
    // with no OS to take from a first taken device, nothing is narrowed
    ensures TargetOS(Partition(results, snapshot, true)).None? ==>
      r == Groups(Partition(results, snapshot, true), Partition(results, snapshot, false))
    // otherwise both groups are narrowed to the OS of the first taken device
    ensures var os := TargetOS(Partition(results, snapshot, true));
      os.Some? && os.value != "" ==>
        (forall d :: d in r.taken <==> d in results && d.udid in snapshot && d.osIdentifier == os) &&
        (forall d :: d in r.free <==> d in results && d.udid !in snapshot && d.osIdentifier == os)
  {
    var taken := Partition(results, snapshot, true);
    var free := Partition(results, snapshot, false);
    var target := TargetOS(taken);
    Groups(Narrow(taken, target), Narrow(free, target))
  }

  /**
   * A non-empty query never leaves both groups empty, so `taken[0]` is a real
   * prototype whenever there is no free device, unless the first taken device
   * reports an empty OS identifier.
   */
  lemma NoFreeMeansTaken(results: seq<SimDevice>, snapshot: set<string>)
    requires |results| > 0
    requires TargetOS(Partition(results, snapshot, true)) != Some("")
    ensures GroupDevicesByStatus(results, snapshot).free == [] ==> GroupDevicesByStatus(results, snapshot).taken != []
  {
    PartitionSizes(results, snapshot);
    var taken := Partition(results, snapshot, true);
    if |taken| > 0 {
      assert Matches(TargetOS(taken), taken[0]);
    }
  }

  /** With an empty OS identifier on the first taken device, both groups come out empty. */
  lemma EmptyOSIdentifierEmptiesGroups(results: seq<SimDevice>, snapshot: set<string>)
    requires TargetOS(Partition(results, snapshot, true)) == Some("")
    ensures GroupDevicesByStatus(results, snapshot) == Groups([], [])
  {
  }

  /**
   * `_findOrCreateDevice`: the first free udid, that is the udid of the lowest-index
   * listed device not in the snapshot and of the target OS; else the udid created
   * from `taken[0]`.
   */
  function ChosenUdid(listed: seq<SimDevice>, snapshot: set<string>, created: string): (r: string)
    ensures var g := GroupDevicesByStatus(listed, snapshot);
      g.free != [] ==> r == g.free[0].udid && r !in snapshot && exists d :: d in listed && d.udid == r
    ensures var i := FirstReusable(listed, snapshot, TargetOS(Partition(listed, snapshot, true)));
      GroupDevicesByStatus(listed, snapshot).free != [] ==> i < |listed| && r == listed[i].udid
    ensures GroupDevicesByStatus(listed, snapshot).free == [] ==> r == created
  {
    FirstFree(listed, snapshot, TargetOS(Partition(listed, snapshot, true)));
    var g := GroupDevicesByStatus(listed, snapshot);
    if g.free == [] then created else g.free[0].udid
  }

  function FindOrCreateEffects(listed: seq<SimDevice>, snapshot: set<string>, created: string): seq<SimEffect> {
    var g := GroupDevicesByStatus(listed, snapshot);
    if g.free == [] then [Created(if g.taken == [] then None else Some(g.taken[0]), created), ScreenshotWorkaround(created)]
    else []
  }

  function Shutdowns(udids: seq<string>): (r: seq<SimEffect>)
    ensures |r| == |udids| && forall i :: 0 <= i < |udids| ==> r[i] == ShutdownAttempted(udids[i])
  {
    seq(|udids|, i requires 0 <= i < |udids| => ShutdownAttempted(udids[i]))
  }

  class SimulatorAllocDriver {
    const registry: DeviceRegistry
    const shouldShutdown: bool
    var launchInfo: map<string, DeviceConfig>
    var allocatedSimulators: set<string>
    var effects: seq<SimEffect>

    constructor (registry: DeviceRegistry, shutdownDevice: bool)
      ensures this.registry == registry && shouldShutdown == shutdownDevice
      ensures launchInfo == map[] && allocatedSimulators == {} && effects == []
    {
      this.registry := registry;
      shouldShutdown := shutdownDevice;
      launchInfo := map[];
      allocatedSimulators := {};
      effects := [];
    }

    /** `init`: the registry is reset only when no other Detox run is going on. */
    method Init(concurrentDetox: bool)
      modifies registry
      ensures concurrentDetox ==> registry.busy == old(registry.busy) && registry.session == old(registry.session)
      ensures !concurrentDetox ==> registry.Valid() && registry.busy == {} && registry.session == {}
    {
      if !concurrentDetox {
        registry.Reset();
      }
    }

    /**
     * `allocate`: `listed` is what the query returned and `created` what creating
     * a simulator from the prototype returns. An empty query fails before the
     * registry is touched.
     */
    method Allocate(config: DeviceConfig, listed: seq<SimDevice>, created: string) returns (r: Result<Cookie, AllocError>)
      requires registry.Valid()
      modifies this, registry
      ensures registry.Valid()
      ensures |listed| == 0 ==> r == Err(NoDevicesListed) && unchanged(this, registry)
      ensures |listed| > 0 ==>
        var udid := ChosenUdid(listed, old(registry.busy), created);
        effects == old(effects) + FindOrCreateEffects(listed, old(registry.busy), created) &&
        allocatedSimulators == old(allocatedSimulators) + {udid} &&
        (udid == "" ==>
          r == Err(FailedToFindDevice) && launchInfo == old(launchInfo) &&
          registry.busy == old(registry.busy) && registry.session == old(registry.session)) &&
        (udid != "" ==>
          r == Ok(Cookie(udid)) && launchInfo == old(launchInfo)[udid := config] &&
          registry.busy == old(registry.busy) + {udid} && registry.session == old(registry.session) + {udid})
    {
      if |listed| == 0 {
        return Err(NoDevicesListed);
      }
      var udid := FindOrCreateDevice(listed, created);
      udid := registry.RegisterDevice(udid);
      if udid == "" {
        return Err(FailedToFindDevice);
      }
      launchInfo := launchInfo[udid := config];
      r := Ok(Cookie(udid));
    }

    /** `_findOrCreateDevice`, run inside the registry's callback. */
    method FindOrCreateDevice(listed: seq<SimDevice>, created: string) returns (udid: string)
      modifies this
      ensures udid == ChosenUdid(listed, registry.busy, created)
      ensures effects == old(effects) + FindOrCreateEffects(listed, registry.busy, created)
      ensures allocatedSimulators == old(allocatedSimulators) + {udid}
      ensures launchInfo == old(launchInfo)
    {
      var groups := GroupDevicesByStatus(listed, registry.TakenDevices());
      if groups.free == [] {
        var prototype := if groups.taken == [] then None else Some(groups.taken[0]);
        udid := created;
        effects := effects + [Created(prototype, udid), ScreenshotWorkaround(udid)];
      } else {
        udid := groups.free[0].udid;
      }
      allocatedSimulators := allocatedSimulators + {udid};
    }

    /** `postAllocate`: launch with the configuration `allocate` recorded; `launch` reports a failure. */
    method PostAllocate(cookie: Cookie, launch: (string, DeviceConfig) -> Option<string>) returns (r: Result<(), AllocError>)
      modifies this
      ensures cookie.udid !in old(launchInfo) ==> r == Err(MissingLaunchInfo) && effects == old(effects)
      ensures cookie.udid in old(launchInfo) ==>
        var config := old(launchInfo)[cookie.udid];
        effects == old(effects) + [Launched(cookie.udid, config)] &&
        r == (if launch(cookie.udid, config).Some? then Err(LaunchFailed(launch(cookie.udid, config).value)) else Ok(()))
      ensures launchInfo == old(launchInfo) && allocatedSimulators == old(allocatedSimulators)
    {
      if cookie.udid !in launchInfo {
        return Err(MissingLaunchInfo);
      }
      var config := launchInfo[cookie.udid];
      effects := effects + [Launched(cookie.udid, config)];
      var failure := launch(cookie.udid, config);
      r := if failure.Some? then Err(LaunchFailed(failure.value)) else Ok(());
    }

    /** `_doShutdown`: a failure to shut down is logged and swallowed. */
    method DoShutdown(udid: string)
      modifies this
      ensures effects == old(effects) + [ShutdownAttempted(udid)]
      ensures launchInfo == old(launchInfo) && allocatedSimulators == old(allocatedSimulators)
    {
      effects := effects + [ShutdownAttempted(udid)];
    }

    /** `free`: shut down and unregister, or only release. */
    method Free(cookie: Cookie, shutdown: bool)
      requires registry.Valid()
      modifies this, registry
      ensures registry.Valid()
      ensures shutdown ==>
        effects == old(effects) + [ShutdownAttempted(cookie.udid)] &&
        registry.busy == old(registry.busy) - {cookie.udid} && registry.session == old(registry.session) - {cookie.udid}
      ensures !shutdown ==>
        effects == old(effects) &&
        registry.busy == old(registry.busy) - {cookie.udid} && registry.session == old(registry.session)
      ensures launchInfo == old(launchInfo) && allocatedSimulators == old(allocatedSimulators)
    {
      if shutdown {
        DoShutdown(cookie.udid);
        registry.UnregisterDevice(cookie.udid);
      } else {
        registry.ReleaseDevice(cookie.udid);
      }
    }

    /**
     * `cleanup`: when configured to, try to shut down every device of this
     * session, each once and in some order; then unregister them all.
     */
    method Cleanup() returns (ghost order: seq<string>)
      requires registry.Valid()
      modifies this, registry
      ensures registry.Valid()
      ensures shouldShutdown ==>
        effects == old(effects) + Shutdowns(order) && multiset(order) == multiset(old(registry.session))
      ensures !shouldShutdown ==> effects == old(effects)
      ensures registry.busy == old(registry.busy) - old(registry.session) && registry.session == {}
      ensures launchInfo == old(launchInfo) && allocatedSimulators == old(allocatedSimulators)
    {
      order := [];
      if shouldShutdown {
        var remaining := registry.session;
        while remaining != {}
          invariant multiset(order) + multiset(remaining) == multiset(registry.session)
          invariant effects == old(effects) + Shutdowns(order)
          invariant registry.busy == old(registry.busy) && registry.session == old(registry.session)
          invariant launchInfo == old(launchInfo) && allocatedSimulators == old(allocatedSimulators)
          decreases |remaining|
        {
          var udid :| udid in remaining;
          DoShutdown(udid);
          assert multiset(remaining - {udid}) + multiset{udid} == multiset(remaining);
          assert Shutdowns(order + [udid]) == Shutdowns(order) + [ShutdownAttempted(udid)];
          order := order + [udid];
          remaining := remaining - {udid};
        }
      }
      registry.UnregisterSessionDevices();
    }
  }
}
