/** Devices, regions, pools, reservations and the requests made on them. */
module Records {
  import opened Base

  // Evidence enumerations travel as 32-bit codes and the parsers cast any code, so they stay codes here.
  type Code = u32

  const HEALTH_UNKNOWN: Code := 0
  const HEALTH_HEALTHY: Code := 1
  const HEALTH_POISONED: Code := 3
  const HEALTH_FAILED: Code := 4
  const VOLATILITY_PERSISTENT: Code := 1
  const VOLATILITY_UNKNOWN: Code := 2
  const SHARING_UNKNOWN: Code := 2
  const LOCALITY_UNKNOWN: Code := 9
  const TIER_UNKNOWN: Code := 6
  const EVIDENCE_UNKNOWN: Code := 5
  const ACCELERATOR_UNKNOWN: Code := 4
  const PROVENANCE_UNSUPPORTED: Code := 3

  datatype DeviceState =
    | Discovered | Enumerated | Available | Online | Degraded | Draining
    | RevalidationRequired | Offline | Failed | Removed | Retired

  datatype RegionState =
    | RegionDefined | RegionValidating | RegionOnline | RegionDegraded | RegionDraining | RegionReconfiguring
    | RegionRevalidationRequired | RegionOffline | RegionFailed | RegionRetired

  datatype PoolState =
    | PoolDefined | PoolAvailable | PoolDegraded | PoolDraining
    | PoolRevalidationRequired | PoolFailed | PoolRetired

  datatype Reason =
    | OK | DEVICE_STALE | REGION_STALE | POOL_STALE | DEVICE_NOT_ONLINE | REGION_NOT_ONLINE | EVIDENCE_STALE
    | CAPACITY_INSUFFICIENT | VOLATILITY_MISMATCH | HOST_INCOMPATIBLE | SHARING_MISMATCH
    | REQUIRED_LOCALITY_UNSATISFIED | ACCELERATOR_ACCESS_UNSATISFIED | HEALTH_UNACCEPTABLE | DRAINING | FAILED
    | POLICY_DENIED | REVALIDATION_REQUIRED | POOL_GENERATION_STALE | RESERVATION_STALE | DUPLICATE_IDENTITY
    | CONFLICTING_FACTS | INVALID_ARGUMENT | RESERVATION_CONFLICT | CAPACITY_OVERCOMMIT | UNKNOWN_ERROR

  predicate DeviceTransition(from: DeviceState, to: DeviceState) {
    from == to ||
    match from
    case Discovered => to == Enumerated
    case Enumerated => to in {Available, Discovered, Offline, Failed, Retired}
    case Available => to in {Online, Degraded, Draining, RevalidationRequired, Offline, Failed, Removed, Retired}
    case Online => to in {Degraded, Draining, RevalidationRequired, Offline, Failed, Removed, Retired}
    case Degraded => to in {Online, Available, Draining, RevalidationRequired, Offline, Failed, Removed, Retired}
    case Draining => to in {Online, Available, RevalidationRequired, Offline, Failed, Removed, Retired}
    case RevalidationRequired => to in {Online, Available, Offline, Failed, Removed, Retired}
    case Offline => to in {Online, Available, RevalidationRequired, Removed, Retired}
    case Failed => to in {Removed, Retired}
    case Removed => to == Retired
    case Retired => false
  }

  predicate RegionTransition(from: RegionState, to: RegionState) {
    from == to ||
    match from
    case RegionDefined => to in {RegionValidating, RegionRetired}
    case RegionValidating => to in {RegionOnline, RegionDefined, RegionFailed, RegionRetired}
    case RegionOnline => to in {RegionDegraded, RegionDraining, RegionReconfiguring, RegionRevalidationRequired,
                                RegionOffline, RegionFailed, RegionRetired}
    case RegionDegraded => to in {RegionOnline, RegionDraining, RegionReconfiguring, RegionRevalidationRequired,
                                  RegionOffline, RegionFailed, RegionRetired}
    case RegionDraining => to in {RegionOnline, RegionRevalidationRequired, RegionOffline, RegionFailed, RegionRetired}
    case RegionReconfiguring => to in {RegionOnline, RegionValidating, RegionRevalidationRequired, RegionFailed,
                                       RegionRetired}
    case RegionRevalidationRequired => to in {RegionOnline, RegionValidating, RegionDraining, RegionOffline,
                                              RegionFailed, RegionRetired}
    case RegionOffline => to in {RegionOnline, RegionValidating, RegionRevalidationRequired, RegionRetired}
    case RegionFailed => to == RegionRetired
    case RegionRetired => false
  }

  predicate PoolTransition(from: PoolState, to: PoolState) {
    from == to ||
    match from
    case PoolDefined => to in {PoolAvailable, PoolFailed, PoolRetired}
    case PoolAvailable => to in {PoolDegraded, PoolDraining, PoolRevalidationRequired, PoolFailed, PoolRetired}
    case PoolDegraded => to in {PoolAvailable, PoolDraining, PoolRevalidationRequired, PoolFailed, PoolRetired}
    case PoolDraining => to in {PoolAvailable, PoolRevalidationRequired, PoolFailed, PoolRetired}
    case PoolRevalidationRequired => to in {PoolAvailable, PoolDegraded, PoolDraining, PoolFailed, PoolRetired}
    case PoolFailed => to == PoolRetired
    case PoolRetired => false
  }

  /** The largest generation that still has a successor is one below this. */
  const GENERATION_MAX: u64 := U64_MAX - 1

  /** The next generation, or 0 when there is none. */
  function NextGeneration(g: u64): u64 {
    if g == GENERATION_MAX then 0 else WrapAdd(g, 1)
  }

  /** A membership change keeps the old generation when no next one exists. */
  function AdvanceGeneration(g: u64): u64 {
    if NextGeneration(g) == 0 then g else NextGeneration(g)
  }

  datatype Capability = Capability(
    klass: Code, support: Code, version: u64, provenance: Code, evidenceGeneration: u64,
    evidenceCurrent: bool, constraints: Str)

  /** Access economics. The floating-point penalty is not modelled: nothing reads it. */
  datatype Economics = Economics(
    locality: Code, tier: Code, evidenceClass: Code, provenance: Code, latency: u64, bandwidth: u64,
    hopCount: u32, migrationCost: u64, failsafeValid: bool, notes: Str)

  /** A device record. The capability map is the list of its values in the map's order of classes. */
  datatype Device = Device(
    id: Str, generation: u64, bootId: Str, rawIdentity: Str, vendorDeviceId: Str, deviceClass: Str,
    deviceType: Str, host: Str, ports: seq<Str>, switchAncestry: seq<Str>, totalPhysicalBytes: u64,
    onlineBytes: u64, volatility: Code, sharing: Code, multiHostCapable: bool, interleaveCapable: bool,
    acceleratorAccess: Code, health: Code, state: DeviceState, capabilities: seq<Capability>,
    economics: Economics, provenance: Code, evidenceGeneration: u64, evidenceCurrent: bool,
    firmwareMetadata: Str, lifecycleNote: Str)

  datatype Region = Region(
    id: Str, generation: u64, pool: Str, members: seq<Str>, interleaveSet: Str, capacity: u64,
    interleaved: bool, state: RegionState, decoders: seq<Str>, windows: seq<Str>, accessMode: Str,
    consumerScope: Str, locality: Code, tier: Code, health: Code, reserved: u64, committed: u64,
    provenance: Code, evidenceGeneration: u64, evidenceCurrent: bool, deviceLocal: bool)

  datatype PoolMember = PoolMember(
    device: Str, deviceGeneration: u64, nominalBytes: u64, online: bool, healthOk: bool,
    failureDomain: Str, locality: Code)

  datatype Pool = Pool(
    id: Str, generation: u64, members: seq<PoolMember>, totalGoverned: u64, committed: u64, reserved: u64,
    draining: u64, unavailable: u64, admissionPolicy: Str, failureDomains: seq<Str>,
    localityDistribution: Code, healthSummary: Code, state: PoolState, provenance: Code,
    evidenceGeneration: u64, evidenceCurrent: bool, lifecycleNote: Str)

  datatype ResumeState = Reserved | Committed | Released | Fenced

  datatype Reservation = Reservation(
    id: Str, consumer: Str, consumerGeneration: u64, pool: Str, poolGeneration: u64, region: Str,
    regionGeneration: u64, device: Str, deviceGeneration: u64, deviceBootId: Str, bytes: u64,
    state: ResumeState, createdEpoch: u64, commitEpoch: u64, workerBootId: Str, evidenceCurrentAtReserve: bool)

  /** The fields of an admission request that evaluation and reservation read. */
  datatype Request = Request(
    bytes: u64, volatility: Code, consumer: Str, host: Str, requiredPool: Option<Str>,
    minimumLocality: Option<Code>, requiredTier: Option<Code>, acceleratorAccess: Option<Code>, sharing: Code,
    requirePersistence: bool, minimumBandwidth: u64, maximumLatency: u64)

  datatype Authority = Authority(epoch: u64, policyGeneration: u64, workerBootId: Str, consumerGeneration: u64)

  /** The durable part of the state: what export hands out and import takes in. */
  datatype Persisted = Persisted(
    policyGeneration: u64, devices: map<Str, Device>, regions: map<Str, Region>, pools: map<Str, Pool>)

  /** Every map files a record under the record's own id. */
  predicate FiledById(devices: map<Str, Device>, regions: map<Str, Region>, pools: map<Str, Pool>) {
    && (forall k | k in devices :: devices[k].id == k)
    && (forall k | k in regions :: regions[k].id == k)
    && (forall k | k in pools :: pools[k].id == k)
  }
}
