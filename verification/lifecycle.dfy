/** The state tables seen from their targets, and which calls move a record outside them. */
module Lifecycle {
  import opened Base
  import opened Records
  import opened Spec
  import opened Shapes

  // ---- the tables, by target ----

  /** The states from which a device can enter the given one. */
  function DeviceSources(to: DeviceState): set<DeviceState> {
    match to
    case Discovered => {Enumerated}
    case Enumerated => {Discovered}
    case Available => {Enumerated, Degraded, Draining, RevalidationRequired, Offline}
    case Online => {Available, Degraded, Draining, RevalidationRequired, Offline}
    case Degraded => {Available, Online}
    case Draining => {Available, Online, Degraded}
    case RevalidationRequired => {Available, Online, Degraded, Draining, Offline}
    case Offline => {Enumerated, Available, Online, Degraded, Draining, RevalidationRequired}
    case Failed => {Enumerated, Available, Online, Degraded, Draining, RevalidationRequired}
    case Removed => {Available, Online, Degraded, Draining, RevalidationRequired, Offline, Failed}
    case Retired => {Enumerated, Available, Online, Degraded, Draining, RevalidationRequired, Offline, Failed, Removed}
  }

  function RegionSources(to: RegionState): set<RegionState> {
    match to
    case RegionDefined => {RegionValidating}
    case RegionValidating => {RegionDefined, RegionReconfiguring, RegionRevalidationRequired, RegionOffline}
    case RegionOnline => {RegionValidating, RegionDegraded, RegionDraining, RegionReconfiguring,
                          RegionRevalidationRequired, RegionOffline}
    case RegionDegraded => {RegionOnline}
    case RegionDraining => {RegionOnline, RegionDegraded, RegionRevalidationRequired}
    case RegionReconfiguring => {RegionOnline, RegionDegraded}
    case RegionRevalidationRequired => {RegionOnline, RegionDegraded, RegionDraining, RegionReconfiguring,
                                        RegionOffline}
    case RegionOffline => {RegionOnline, RegionDegraded, RegionDraining, RegionRevalidationRequired}
    case RegionFailed => {RegionValidating, RegionOnline, RegionDegraded, RegionDraining, RegionReconfiguring,
                          RegionRevalidationRequired}
    case RegionRetired => {RegionDefined, RegionValidating, RegionOnline, RegionDegraded, RegionDraining,
                           RegionReconfiguring, RegionRevalidationRequired, RegionOffline, RegionFailed}
  }

  function PoolSources(to: PoolState): set<PoolState> {
    match to
    case PoolDefined => {}
    case PoolAvailable => {PoolDefined, PoolDegraded, PoolDraining, PoolRevalidationRequired}
    case PoolDegraded => {PoolAvailable, PoolRevalidationRequired}
    case PoolDraining => {PoolAvailable, PoolDegraded, PoolRevalidationRequired}
    case PoolRevalidationRequired => {PoolAvailable, PoolDegraded, PoolDraining}
    case PoolFailed => {PoolDefined, PoolAvailable, PoolDegraded, PoolDraining, PoolRevalidationRequired}
    case PoolRetired => {PoolDefined, PoolAvailable, PoolDegraded, PoolDraining, PoolRevalidationRequired, PoolFailed}
  }

  lemma DeviceTableIff(from: DeviceState, to: DeviceState)
    ensures DeviceTransition(from, to) <==> from == to || from in DeviceSources(to)
  {
    match from
    case Discovered =>
    case Enumerated =>
    case Available =>
    case Online =>
    case Degraded =>
    case Draining =>
    case RevalidationRequired =>
    case Offline =>
    case Failed =>
    case Removed =>
    case Retired =>
  }

  lemma RegionTableIff(from: RegionState, to: RegionState)
    ensures RegionTransition(from, to) <==> from == to || from in RegionSources(to)
  {
    match from
    case RegionDefined =>
    case RegionValidating =>
    case RegionOnline =>
    case RegionDegraded =>
    case RegionDraining =>
    case RegionReconfiguring =>
    case RegionRevalidationRequired =>
    case RegionOffline =>
    case RegionFailed =>
    case RegionRetired =>
  }

  lemma PoolTableIff(from: PoolState, to: PoolState)
    ensures PoolTransition(from, to) <==> from == to || from in PoolSources(to)
  {
    match from
    case PoolDefined =>
    case PoolAvailable =>
    case PoolDegraded =>
    case PoolDraining =>
    case PoolRevalidationRequired =>
    case PoolFailed =>
    case PoolRetired =>
  }

  // ---- states that only lead down ----

  /** A list of states in which each follows from the one before. */
  predicate DevicePath(path: seq<DeviceState>) {
    forall i | 0 <= i < |path| - 1 :: DeviceTransition(path[i], path[i + 1])
  }

  /** Along the table nothing leaves Retired, and nothing that has failed or been removed serves again. */
  lemma {:induction false} NoWayBack(path: seq<DeviceState>)
    requires path != [] && DevicePath(path)
    ensures path[0].Retired? ==> path[|path| - 1].Retired?
    ensures path[0].Removed? ==> path[|path| - 1] in {Removed, Retired}
    ensures path[0].Failed? ==> path[|path| - 1] in {Failed, Removed, Retired}
  {
    if |path| > 1 {
      var n := |path| - 1;
      NoWayBack(path[..n]);
      assert DeviceTransition(path[n - 1], path[n]);
      DeviceTableIff(path[n - 1], path[n]);
    }
  }

  // ---- which calls leave the table ----

  /** A registration at the generation on record: the state it brings is not checked. */
  predicate Refreshes(s: State, op: Op, d: Str)
    requires d in s.devices
  {
    && op.OnDevice? && op.device.RegisterCall? && op.device.dev.id == d && op.device.ctx.epoch == s.epoch
    && d != [] && op.device.dev.generation != 0 && op.device.dev.bootId != []
    && op.device.dev.generation == s.devices[d].generation
    && op.device.dev.vendorDeviceId == s.devices[d].vendorDeviceId
    && op.device.dev.totalPhysicalBytes == s.devices[d].totalPhysicalBytes
  }

  lemma DeviceCallMoves(s: State, c: DeviceCall, d: Str)
    requires d in s.devices
    ensures d in PerformOnDevice(s, c).0.devices
    ensures var t := PerformOnDevice(s, c).0;
      !DeviceTransition(s.devices[d].state, t.devices[d].state) <==>
        Refreshes(s, OnDevice(c), d) && !DeviceTransition(s.devices[d].state, c.dev.state)
  {}

  lemma OthersKeepDevices(s: State, op: Op)
    requires !op.OnDevice? && !op.Restore?
    ensures Apply(s, op).devices == s.devices
  {
    match op
    case Setting(c) =>
    case OnRegion(c) => RegionCallShape(s, c);
    case OnPool(c) => PoolCallShape(s, c);
    case OnReservation(c) => ReservationKeepsDevices(s, c);
  }

  lemma ReservationKeepsDevices(s: State, c: ReservationCall)
    ensures PerformOnReservation(s, c).0.devices == s.devices
  {
    match c
    case ReserveCall(req, ctx) => ReserveKeepsDevices(s, req, ctx);
    case CommitCall(id, ctx) => CommitShape(s, id, ctx);
    case ReleaseCall(id, ctx) => ReleaseKeepsDevices(s, id, ctx);
  }

  lemma ReserveKeepsDevices(s: State, req: Request, ctx: Authority)
    ensures Reserve(s, req, ctx).0.devices == s.devices
  {}

  lemma ReleaseKeepsDevices(s: State, id: Str, ctx: Authority)
    ensures Release(s, id, ctx).0.devices == s.devices
  {}

  /**
   * Between imports a device's state leaves the table exactly when the device is registered again at the generation on
   * record, with the same vendor and size, in a state the table does not lead to.
   */
  lemma OffTableIff(s: State, op: Op, d: Str)
    requires d in s.devices && !op.Restore?
    ensures d in Apply(s, op).devices
    ensures !DeviceTransition(s.devices[d].state, Apply(s, op).devices[d].state) <==>
      Refreshes(s, op, d) && !DeviceTransition(s.devices[d].state, op.device.dev.state)
  {
    if op.OnDevice? { DeviceCallMoves(s, op.device, d); } else { OthersKeepDevices(s, op); }
  }

  /** No call of the run imports, or registers the device again at the generation on record. */
  ghost predicate NeverRefreshed(s: State, ops: seq<Op>, d: Str)
    decreases |ops|
  {
    ops != [] ==>
      && !ops[0].Restore? && d in s.devices && !Refreshes(s, ops[0], d)
      && NeverRefreshed(Apply(s, ops[0]), ops[1..], d)
  }

  /** A retired device stays retired over every run that neither imports nor refreshes it. */
  lemma {:induction false} RetiredForGood(s: State, ops: seq<Op>, d: Str)
    requires d in s.devices && s.devices[d].state.Retired? && NeverRefreshed(s, ops, d)
    ensures d in Run(s, ops).devices && Run(s, ops).devices[d].state.Retired?
    decreases |ops|
  {
    if ops != [] {
      OffTableIff(s, ops[0], d);
      DeviceTableIff(Retired, Apply(s, ops[0]).devices[d].state);
      RetiredForGood(Apply(s, ops[0]), ops[1..], d);
    }
  }

  /** A replaced or reconfigured region takes its new state without a check. */
  predicate Unchecked(c: RegionCall) {
    c.ReplaceRegionCall? || c.ReconfigureCall?
  }

  /** Between imports a region's state leaves the table only by replacement or reconfiguration. */
  lemma RegionOffTableIff(s: State, c: RegionCall, r: Str)
    requires r in s.regions
    ensures r in PerformOnRegion(s, c).0.regions
    ensures !RegionTransition(s.regions[r].state, PerformOnRegion(s, c).0.regions[r].state) <==>
      && PerformOnRegion(s, c).1 == OK && Unchecked(c) && RegionKey(c) == r
      && !RegionTransition(s.regions[r].state, if c.ReplaceRegionCall? then c.region.state else RegionReconfiguring)
  {
    RegionCallShape(s, c);
  }

  /** Between imports a pool's state never leaves the table. */
  lemma PoolOnTable(s: State, c: PoolCall, p: Str)
    requires p in s.pools
    ensures p in PerformOnPool(s, c).0.pools
    ensures PoolTransition(s.pools[p].state, PerformOnPool(s, c).0.pools[p].state)
  {}
}
