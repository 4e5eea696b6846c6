/** Pool totals and the global capacity line, as the recomputation loops define them. */
module Ledger {
  import opened Base
  import opened Order
  import opened Records
  import opened Evaluation

  /** A checked addition whose failure leaves the running total as it was. */
  function AddOrSkip(a: u64, b: u64): u64 {
    if a > U64_MAX - b then a else a + b
  }

  function GovernedTotal(ms: seq<PoolMember>): u64 {
    if ms == [] then 0
    else
      var m := ms[|ms| - 1];
      var t := GovernedTotal(ms[..|ms| - 1]);
      if m.online then AddOrSkip(t, m.nominalBytes) else t
  }

  function UnavailableTotal(ms: seq<PoolMember>): u64 {
    if ms == [] then 0
    else
      var m := ms[|ms| - 1];
      var t := UnavailableTotal(ms[..|ms| - 1]);
      if m.online && !m.healthOk then AddOrSkip(t, m.nominalBytes) else t
  }

  function Domains(ms: seq<PoolMember>): seq<Str> {
    if ms == [] then []
    else
      var m := ms[|ms| - 1];
      var ds := Domains(ms[..|ms| - 1]);
      if m.online && m.failureDomain != [] && m.failureDomain !in ds then ds + [m.failureDomain] else ds
  }

  function Recomputed(p: Pool): Pool {
    p.(totalGoverned := GovernedTotal(p.members), unavailable := UnavailableTotal(p.members),
       failureDomains := Domains(p.members))
  }

  datatype CapacityLine = CapacityLine(
    total: u64, online: u64, unavailable: u64, reserved: u64, committed: u64, draining: u64)
  {
    function Used(): u64 {
      WrapAdd(WrapAdd(WrapAdd(unavailable, reserved), committed), draining)
    }

    function Free(): u64 {
      if online <= Used() then 0 else online - Used()
    }

    predicate Audit() {
      online <= total && Used() <= online && Free() <= online
    }
  }

  const EMPTY_LINE := CapacityLine(0, 0, 0, 0, 0, 0)

  /** One pool added to the global line; the first overflowing field drops the rest of the pool. */
  function AddPool(g: CapacityLine, p: Pool): CapacityLine {
    if p.state.PoolRetired? || g.total > U64_MAX - p.totalGoverned then g
    else
      var g := g.(total := g.total + p.totalGoverned);
      if g.online > U64_MAX - p.totalGoverned then g
      else
        var g := g.(online := g.online + p.totalGoverned);
        if g.unavailable > U64_MAX - p.unavailable then g
        else
          var g := g.(unavailable := g.unavailable + p.unavailable);
          if g.reserved > U64_MAX - p.reserved then g
          else
            var g := g.(reserved := g.reserved + p.reserved);
            if g.committed > U64_MAX - p.committed then g
            else
              var g := g.(committed := g.committed + p.committed);
              if g.draining > U64_MAX - p.draining then g
              else g.(draining := g.draining + p.draining)
  }

  function LineAlong(pools: map<Str, Pool>, keys: seq<Str>): CapacityLine
    requires forall k | k in keys :: k in pools
  {
    if keys == [] then EMPTY_LINE
    else AddPool(LineAlong(pools, keys[..|keys| - 1]), pools[keys[|keys| - 1]])
  }

  /** The cached line after a recomputation. */
  function GlobalLine(pools: map<Str, Pool>): CapacityLine {
    SortedKeysCover(pools.Keys);
    LineAlong(pools, SortedKeys(pools.Keys))
  }

  /** One pool added by the audit, which skips each overflowing field on its own. */
  function AuditPool(g: CapacityLine, p: Pool): CapacityLine {
    if p.state.PoolRetired? then g
    else CapacityLine(
      AddOrSkip(g.total, p.totalGoverned), AddOrSkip(g.online, p.totalGoverned),
      AddOrSkip(g.unavailable, p.unavailable), AddOrSkip(g.reserved, p.reserved),
      AddOrSkip(g.committed, p.committed), AddOrSkip(g.draining, p.draining))
  }

  function AuditLineAlong(pools: map<Str, Pool>, keys: seq<Str>): CapacityLine
    requires forall k | k in keys :: k in pools
  {
    if keys == [] then EMPTY_LINE
    else AuditPool(AuditLineAlong(pools, keys[..|keys| - 1]), pools[keys[|keys| - 1]])
  }

  datatype AuditReport = AuditReport(ok: bool, overused: seq<Str>, line: CapacityLine)

  function OverusedAlong(pools: map<Str, Pool>, keys: seq<Str>): seq<Str>
    requires forall k | k in keys :: k in pools
  {
    if keys == [] then []
    else
      var p := pools[keys[|keys| - 1]];
      OverusedAlong(pools, keys[..|keys| - 1]) +
      if !p.state.PoolRetired? && p.totalGoverned < PoolUsed(p) then [p.id] else []
  }

  function AuditLine(pools: map<Str, Pool>): CapacityLine {
    SortedKeysCover(pools.Keys);
    AuditLineAlong(pools, SortedKeys(pools.Keys))
  }

  function Overused(pools: map<Str, Pool>): seq<Str> {
    SortedKeysCover(pools.Keys);
    OverusedAlong(pools, SortedKeys(pools.Keys))
  }

  function AuditOf(pools: map<Str, Pool>): AuditReport {
    AuditReport(Overused(pools) == [] && AuditLine(pools).Audit(), Overused(pools), AuditLine(pools))
  }
}

/** The governance engine as a state machine: one function per public operation. */
module Spec {
  import opened Base
  import opened Decimal
  import opened Records
  import opened Evaluation
  import opened Placement
  import opened Ledger

  datatype State = State(
    epoch: u64, policyGeneration: u64, evidenceGeneration: u64,
    devices: map<Str, Device>, regions: map<Str, Region>, pools: map<Str, Pool>,
    reservations: map<Str, Reservation>, ledger: CapacityLine, sequence: u64)
  {
    function Snapshot(): View {
      View(devices, regions, pools)
    }
  }

  function Initial(epoch: u64, policy: u64): State {
    State(epoch, policy, 0, map[], map[], map[], map[], EMPTY_LINE, 0)
  }

  datatype ReserveOutcome = ReserveOutcome(ok: bool, reason: Reason, reservation: Option<Reservation>)

  function Refused(why: Reason): ReserveOutcome {
    ReserveOutcome(false, why, None)
  }

  function Granted(res: Reservation): ReserveOutcome {
    ReserveOutcome(true, OK, Some(res))
  }

  function RegisterDevice(s: State, dev: Device, ctx: Authority): (State, Reason) {
    if ctx.epoch != s.epoch then (s, RESERVATION_STALE)
    else if dev.id == [] || dev.generation == 0 || dev.bootId == [] then (s, INVALID_ARGUMENT)
    else if dev.id in s.devices then
      var existing := s.devices[dev.id];
      if existing.generation == dev.generation then
        if existing.vendorDeviceId != dev.vendorDeviceId || existing.totalPhysicalBytes != dev.totalPhysicalBytes
        then (s, CONFLICTING_FACTS)
        else (s.(devices := s.devices[dev.id := dev]), OK)
      else if dev.generation < existing.generation then (s, DEVICE_STALE)
      else if !DeviceTransition(existing.state, dev.state) then (s, INVALID_ARGUMENT)
      else (s.(devices := s.devices[dev.id := dev]), OK)
    else (s.(devices := s.devices[dev.id := dev]), OK)
  }

  predicate IsMember(ms: seq<PoolMember>, device: Str) {
    exists i :: 0 <= i < |ms| && ms[i].device == device
  }

  /** The verdict on a region's member list: the first bad entry decides. */
  function MembersVerdict(s: State, pool: Pool, names: seq<Str>): Reason {
    if names == [] then OK
    else if names[0] !in s.devices then DEVICE_NOT_ONLINE
    else if !IsMember(pool.members, names[0]) then CONFLICTING_FACTS
    else MembersVerdict(s, pool, names[1..])
  }

  function CreateRegion(s: State, region: Region, ctx: Authority): (State, Reason) {
    if ctx.epoch != s.epoch then (s, RESERVATION_STALE)
    else if region.id == [] || region.generation == 0 || region.pool == [] then (s, INVALID_ARGUMENT)
    else if region.id in s.regions then (s, DUPLICATE_IDENTITY)
    else if region.pool !in s.pools then (s, POOL_STALE)
    else
      var why := MembersVerdict(s, s.pools[region.pool], region.members);
      if why != OK then (s, why) else (s.(regions := s.regions[region.id := region]), OK)
  }

  function UpdateRegion(s: State, region: Region, ctx: Authority): (State, Reason) {
    if ctx.epoch != s.epoch then (s, RESERVATION_STALE)
    else if region.id !in s.regions || region.generation < s.regions[region.id].generation then (s, REGION_STALE)
    else (s.(regions := s.regions[region.id := region]), OK)
  }

  function ReconfigureRegion(s: State, id: Str, members: seq<Str>, ctx: Authority): (State, Reason) {
    if ctx.epoch != s.epoch then (s, RESERVATION_STALE)
    else if id !in s.regions then (s, REGION_STALE)
    else
      var next := NextGeneration(s.regions[id].generation);
      if next == 0 then (s, INVALID_ARGUMENT)
      else
        var r := s.regions[id].(generation := next, members := members, state := RegionReconfiguring,
                                evidenceCurrent := false);
        (s.(regions := s.regions[id := r]), OK)
  }

  predicate Governed(pools: map<Str, Pool>, device: Str) {
    exists k :: k in pools && IsMember(pools[k].members, device)
  }

  /** The verdict on a new pool's members from index i on. */
  function PoolVerdict(s: State, ms: seq<PoolMember>, i: nat): Reason
    requires i <= |ms|
    decreases |ms| - i
  {
    if i == |ms| then OK
    else if ms[i].device !in s.devices then DEVICE_NOT_ONLINE
    else if IsMember(ms[..i], ms[i].device) then DUPLICATE_IDENTITY
    else if Governed(s.pools, ms[i].device) then CONFLICTING_FACTS
    else PoolVerdict(s, ms, i + 1)
  }

  /** A pool record replaced, with the cached line recomputed. */
  function WithPool(s: State, key: Str, p: Pool): State {
    var pools := s.pools[key := p];
    s.(pools := pools, ledger := GlobalLine(pools))
  }

  function CreatePool(s: State, pool: Pool, ctx: Authority): (State, Reason) {
    if ctx.epoch != s.epoch then (s, RESERVATION_STALE)
    else if pool.id == [] || pool.generation == 0 then (s, INVALID_ARGUMENT)
    else if pool.id in s.pools then (s, DUPLICATE_IDENTITY)
    else
      var why := PoolVerdict(s, pool.members, 0);
      if why != OK then (s, why)
      else (WithPool(s, pool.id, Recomputed(pool).(state := PoolAvailable, evidenceCurrent := true)), OK)
  }

  function AddMember(s: State, poolId: Str, m: PoolMember, ctx: Authority): (State, Reason) {
    if ctx.epoch != s.epoch then (s, RESERVATION_STALE)
    else if poolId !in s.pools then (s, POOL_STALE)
    else if m.device !in s.devices then (s, DEVICE_NOT_ONLINE)
    else if m.deviceGeneration == 0 then (s, INVALID_ARGUMENT)
    else if IsMember(s.pools[poolId].members, m.device) then (s, DUPLICATE_IDENTITY)
    else if Governed(s.pools - {poolId}, m.device) then (s, CONFLICTING_FACTS)
    else
      var p := s.pools[poolId];
      (WithPool(s, poolId, Recomputed(p.(members := p.members + [m],
                                         generation := AdvanceGeneration(p.generation)))), OK)
  }

  /** The members without the first one that names the device. */
  function Without(ms: seq<PoolMember>, device: Str): seq<PoolMember> {
    if ms == [] then []
    else if ms[0].device == device then ms[1..]
    else [ms[0]] + Without(ms[1..], device)
  }

  function RemoveMember(s: State, poolId: Str, device: Str, ctx: Authority): (State, Reason) {
    if ctx.epoch != s.epoch then (s, RESERVATION_STALE)
    else if poolId !in s.pools then (s, POOL_STALE)
    else if !IsMember(s.pools[poolId].members, device) then (s, DEVICE_NOT_ONLINE)
    else
      var p := s.pools[poolId];
      (WithPool(s, poolId, Recomputed(p.(members := Without(p.members, device),
                                         generation := AdvanceGeneration(p.generation)))), OK)
  }

  function MarkDevice(s: State, id: Str, to: DeviceState, current: bool, ctx: Authority): (State, Reason) {
    if ctx.epoch != s.epoch then (s, RESERVATION_STALE)
    else if id !in s.devices then (s, DEVICE_NOT_ONLINE)
    else if !DeviceTransition(s.devices[id].state, to) then (s, INVALID_ARGUMENT)
    else
      var d := s.devices[id].(state := to, evidenceCurrent := current);
      (s.(devices := s.devices[id := d]), OK)
  }

  function MarkRegionDraining(s: State, id: Str, ctx: Authority): (State, Reason) {
    if ctx.epoch != s.epoch then (s, RESERVATION_STALE)
    else if id !in s.regions then (s, REGION_STALE)
    else if !RegionTransition(s.regions[id].state, RegionDraining) then (s, INVALID_ARGUMENT)
    else (s.(regions := s.regions[id := s.regions[id].(state := RegionDraining)]), OK)
  }

  function MarkPoolDraining(s: State, id: Str, ctx: Authority): (State, Reason) {
    if ctx.epoch != s.epoch then (s, RESERVATION_STALE)
    else if id !in s.pools then (s, POOL_STALE)
    else if !PoolTransition(s.pools[id].state, PoolDraining) then (s, INVALID_ARGUMENT)
    else (s.(pools := s.pools[id := s.pools[id].(state := PoolDraining)]), OK)
  }

  function ReconcilePool(s: State, id: Str, ctx: Authority): (State, Reason) {
    if ctx.epoch != s.epoch then (s, RESERVATION_STALE)
    else if id !in s.pools then (s, POOL_STALE)
    else (WithPool(s, id, Recomputed(s.pools[id])), OK)
  }

  function RevalidatePool(s: State, id: Str, ctx: Authority): (State, Reason) {
    if ctx.epoch != s.epoch then (s, RESERVATION_STALE)
    else if id !in s.pools then (s, POOL_STALE)
    else if !PoolTransition(s.pools[id].state, PoolAvailable) then (s, INVALID_ARGUMENT)
    else
      var p := s.pools[id].(state := PoolAvailable, evidenceCurrent := true, healthSummary := HEALTH_HEALTHY);
      (WithPool(s, id, Recomputed(p)), OK)
  }

  function RevalidateRegion(s: State, id: Str, ctx: Authority): (State, Reason) {
    if ctx.epoch != s.epoch then (s, RESERVATION_STALE)
    else if id !in s.regions then (s, REGION_STALE)
    else if !RegionTransition(s.regions[id].state, RegionOnline) then (s, INVALID_ARGUMENT)
    else
      var r := s.regions[id].(state := RegionOnline, evidenceCurrent := true, health := HEALTH_HEALTHY);
      (s.(regions := s.regions[id := r]), OK)
  }

  function ReservationId(n: u64): Str {
    [114, 101, 115, 45] + ToDecimal(n)
  }

  /** The reservation a grant records, captured from the records of the moment. */
  function Captured(s: State, c: Candidate, req: Request, ctx: Authority, id: Str): Reservation
    requires c.device in s.devices
  {
    var dev := s.devices[c.device];
    Reservation(id, req.consumer, ctx.consumerGeneration, c.pool, c.poolGeneration, c.region, c.regionGeneration,
                c.device, c.deviceGeneration, dev.bootId, req.bytes, Reserved, s.epoch, 0, ctx.workerBootId,
                dev.evidenceCurrent)
  }

  /** Booking the chosen candidate: generations and both free counts are checked again first. */
  function Book(s: State, c: Candidate, req: Request, ctx: Authority): (State, ReserveOutcome) {
    if c.pool !in s.pools || c.region !in s.regions || c.device !in s.devices then (s, Refused(UNKNOWN_ERROR))
    else
      var pool, region := s.pools[c.pool], s.regions[c.region];
      if pool.generation != c.poolGeneration || region.generation != c.regionGeneration ||
         s.devices[c.device].generation != c.deviceGeneration
      then (s, Refused(POOL_GENERATION_STALE))
      else if req.bytes > PoolFree(pool) || req.bytes > RegionFree(region)
      then (s, Refused(CAPACITY_OVERCOMMIT))
      else
        var n := WrapAdd(s.sequence, 1);
        var res := Captured(s, c, req, ctx, ReservationId(n));
        var booked := WithPool(s, c.pool, pool.(reserved := WrapAdd(pool.reserved, req.bytes)));
        (booked.(
           regions := s.regions[c.region := region.(reserved := WrapAdd(region.reserved, req.bytes))],
           reservations := if res.id in s.reservations then s.reservations else s.reservations[res.id := res],
           sequence := n), Granted(res))
  }

  function Reserve(s: State, req: Request, ctx: Authority): (State, ReserveOutcome) {
    if ctx.epoch != s.epoch then (s, Refused(RESERVATION_STALE))
    else if req.bytes == 0 then (s, Refused(INVALID_ARGUMENT))
    else
      var sel := Select(s.Snapshot(), req);
      if !sel.ok then (s, Refused(sel.result.reason)) else Book(s, sel.chosen.value, req, ctx)
  }

  function Commit(s: State, id: Str, ctx: Authority): (State, ReserveOutcome) {
    if id !in s.reservations then (s, Refused(RESERVATION_STALE))
    else
      var res := s.reservations[id];
      if !res.state.Reserved? || ctx.epoch != s.epoch || res.createdEpoch != s.epoch ||
         (ctx.workerBootId != [] && ctx.workerBootId != res.workerBootId)
      then (s, Refused(RESERVATION_STALE))
      else if res.pool !in s.pools || res.region !in s.regions || res.device !in s.devices
      then (s, Refused(POOL_GENERATION_STALE))
      else
        var p, r := s.pools[res.pool], s.regions[res.region];
        if p.generation != res.poolGeneration then (s, Refused(POOL_GENERATION_STALE))
        else if r.generation != res.regionGeneration then (s, Refused(REGION_STALE))
        else if s.devices[res.device].generation != res.deviceGeneration then (s, Refused(DEVICE_STALE))
        else if res.bytes > p.reserved then (s, Refused(CAPACITY_OVERCOMMIT))
        else
          var done := res.(state := Committed, commitEpoch := s.epoch);
          var booked := WithPool(s, res.pool, p.(reserved := p.reserved - res.bytes,
                                                 committed := WrapAdd(p.committed, res.bytes)));
          (booked.(
             regions := s.regions[res.region := r.(reserved := WrapSub(r.reserved, res.bytes),
                                                   committed := WrapAdd(r.committed, res.bytes))],
             reservations := s.reservations[id := done]), Granted(done))
  }

  /** What one greedy release leaves: committed bytes go first, then reserved bytes if they cover the rest. */
  datatype Drawdown = Drawdown(committed: u64, reserved: u64, remaining: u64)

  function Draw(committed: u64, reserved: u64, bytes: u64): Drawdown {
    var take := Min(bytes, committed);
    var rest := bytes - take;
    if rest <= reserved then Drawdown(committed - take, reserved - rest, 0)
    else Drawdown(committed - take, reserved, rest)
  }

  function DebitPool(p: Pool, bytes: u64): Pool {
    var d := Draw(p.committed, p.reserved, bytes);
    p.(committed := d.committed, reserved := d.reserved)
  }

  function DebitRegion(r: Region, bytes: u64): Region {
    var d := Draw(r.committed, r.reserved, bytes);
    r.(committed := d.committed, reserved := d.reserved)
  }

  predicate Shortfall(s: State, res: Reservation) {
    res.pool in s.pools && Draw(s.pools[res.pool].committed, s.pools[res.pool].reserved, res.bytes).remaining != 0
  }

  function Release(s: State, id: Str, ctx: Authority): (State, ReserveOutcome) {
    if id !in s.reservations then (s, Refused(RESERVATION_STALE))
    else
      var res := s.reservations[id];
      if ctx.epoch != s.epoch || !(res.state.Reserved? || res.state.Committed?)
      then (s, Refused(RESERVATION_STALE))
      else
        var pools := if res.pool in s.pools then s.pools[res.pool := DebitPool(s.pools[res.pool], res.bytes)]
                     else s.pools;
        if Shortfall(s, res) then (s.(pools := pools), Refused(RESERVATION_CONFLICT))
        else
          var regions := if res.region in s.regions
                         then s.regions[res.region := DebitRegion(s.regions[res.region], res.bytes)] else s.regions;
          var done := res.(state := Released);
          (s.(pools := pools, regions := regions, reservations := s.reservations[id := done],
              ledger := GlobalLine(pools)), Granted(done))
  }

  function Export(s: State): Persisted {
    Persisted(s.policyGeneration, s.devices, s.regions, s.pools)
  }

  function ImportedDevices(devices: map<Str, Device>): map<Str, Device> {
    map k | k in devices ::
      devices[k].(evidenceCurrent := false, state := RevalidationRequired, health := HEALTH_UNKNOWN)
  }

  function ImportedRegions(regions: map<Str, Region>): map<Str, Region> {
    map k | k in regions :: regions[k].(evidenceCurrent := false, state := RegionRevalidationRequired)
  }

  function ImportedPools(pools: map<Str, Pool>): map<Str, Pool> {
    map k | k in pools :: pools[k].(evidenceCurrent := false, state := PoolRevalidationRequired)
  }

  /** Structure comes back from disk; reservations and every claim to current evidence do not. */
  function Import(s: State, ps: Persisted): State {
    var pools := ImportedPools(ps.pools);
    s.(policyGeneration := ps.policyGeneration, devices := ImportedDevices(ps.devices),
       regions := ImportedRegions(ps.regions), pools := pools, reservations := map[], ledger := GlobalLine(pools))
  }

  // ---- runs ----

  datatype SettingCall = SetEpochCall(epoch: u64) | SetPolicyCall(policy: u64) | AdvanceEvidenceCall

  datatype DeviceCall =
    | RegisterCall(dev: Device, ctx: Authority)
    | DistrustCall(id: Str, ctx: Authority)
    | OnlineCall(id: Str, ctx: Authority)

  datatype RegionCall =
    | NewRegionCall(region: Region, ctx: Authority)
    | ReplaceRegionCall(region: Region, ctx: Authority)
    | ReconfigureCall(id: Str, members: seq<Str>, ctx: Authority)
    | DrainRegionCall(id: Str, ctx: Authority)
    | RevalidateRegionCall(id: Str, ctx: Authority)

  datatype PoolCall =
    | NewPoolCall(pool: Pool, ctx: Authority)
    | AddMemberCall(id: Str, member: PoolMember, ctx: Authority)
    | RemoveMemberCall(id: Str, device: Str, ctx: Authority)
    | DrainPoolCall(id: Str, ctx: Authority)
    | ReconcileCall(id: Str, ctx: Authority)
    | RevalidatePoolCall(id: Str, ctx: Authority)

  datatype ReservationCall =
    | ReserveCall(req: Request, ctx: Authority)
    | CommitCall(id: Str, ctx: Authority)
    | ReleaseCall(id: Str, ctx: Authority)

  /** One public call. Calls that only read are not steps. */
  datatype Op =
    | Setting(setting: SettingCall)
    | OnDevice(device: DeviceCall)
    | OnRegion(region: RegionCall)
    | OnPool(pool: PoolCall)
    | OnReservation(reservation: ReservationCall)
    | Restore(ps: Persisted)

  function ApplySetting(s: State, c: SettingCall): State {
    match c
    case SetEpochCall(e) => s.(epoch := e)
    case SetPolicyCall(p) => s.(policyGeneration := p)
    case AdvanceEvidenceCall => s.(evidenceGeneration := AdvanceGeneration(s.evidenceGeneration))
  }

  function PerformOnDevice(s: State, c: DeviceCall): (State, Reason) {
    match c
    case RegisterCall(dev, ctx) => RegisterDevice(s, dev, ctx)
    case DistrustCall(id, ctx) => MarkDevice(s, id, RevalidationRequired, false, ctx)
    case OnlineCall(id, ctx) => MarkDevice(s, id, Online, true, ctx)
  }

  function PerformOnRegion(s: State, c: RegionCall): (State, Reason) {
    match c
    case NewRegionCall(region, ctx) => CreateRegion(s, region, ctx)
    case ReplaceRegionCall(region, ctx) => UpdateRegion(s, region, ctx)
    case ReconfigureCall(id, members, ctx) => ReconfigureRegion(s, id, members, ctx)
    case DrainRegionCall(id, ctx) => MarkRegionDraining(s, id, ctx)
    case RevalidateRegionCall(id, ctx) => RevalidateRegion(s, id, ctx)
  }

  function PerformOnPool(s: State, c: PoolCall): (State, Reason) {
    match c
    case NewPoolCall(pool, ctx) => CreatePool(s, pool, ctx)
    case AddMemberCall(id, m, ctx) => AddMember(s, id, m, ctx)
    case RemoveMemberCall(id, device, ctx) => RemoveMember(s, id, device, ctx)
    case DrainPoolCall(id, ctx) => MarkPoolDraining(s, id, ctx)
    case ReconcileCall(id, ctx) => ReconcilePool(s, id, ctx)
    case RevalidatePoolCall(id, ctx) => RevalidatePool(s, id, ctx)
  }

  function PerformOnReservation(s: State, c: ReservationCall): (State, ReserveOutcome) {
    match c
    case ReserveCall(req, ctx) => Reserve(s, req, ctx)
    case CommitCall(id, ctx) => Commit(s, id, ctx)
    case ReleaseCall(id, ctx) => Release(s, id, ctx)
  }

  /** One public call as one atomic step, and whether the call reported success. */
  function Perform(s: State, op: Op): (State, bool) {
    match op
    case Setting(c) => (ApplySetting(s, c), true)
    case OnDevice(c) => Reported(PerformOnDevice(s, c))
    case OnRegion(c) => Reported(PerformOnRegion(s, c))
    case OnPool(c) => Reported(PerformOnPool(s, c))
    case OnReservation(c) => var r := PerformOnReservation(s, c); (r.0, r.1.ok)
    case Restore(ps) => (Import(s, ps), true)
  }

  function Reported(r: (State, Reason)): (State, bool) {
    (r.0, r.1 == OK)
  }

  function Apply(s: State, op: Op): State {
    Perform(s, op).0
  }

  function Run(s: State, ops: seq<Op>): State
    decreases |ops|
  {
    if ops == [] then s else Run(Apply(s, ops[0]), ops[1..])
  }
}
