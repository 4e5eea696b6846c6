/** The payloads of the control plane: device, reserve, pool and region messages. */
module ControlCodec {
  import opened Base
  import opened Records
  import opened Streams
  import opened Persistence
  import IO = StateFileIO

  // ---- device states on the wire ----

  function DeviceStateCode(s: DeviceState): Code {
    match s
    case Discovered => 0
    case Enumerated => 1
    case Available => 2
    case Online => 3
    case Degraded => 4
    case Draining => 5
    case RevalidationRequired => 6
    case Offline => 7
    case Failed => 8
    case Removed => 9
    case Retired => 10
  }

  function RegionStateCode(s: RegionState): Code {
    match s
    case RegionDefined => 0
    case RegionValidating => 1
    case RegionOnline => 2
    case RegionDegraded => 3
    case RegionDraining => 4
    case RegionReconfiguring => 5
    case RegionRevalidationRequired => 6
    case RegionOffline => 7
    case RegionFailed => 8
    case RegionRetired => 9
  }

  // The enumerators in the order they are declared, which numbers them.

  const DEVICE_STATES: seq<DeviceState> := [
    Discovered, Enumerated, Available, Online, Degraded, Draining, RevalidationRequired, Offline, Failed, Removed,
    Retired]

  const REGION_STATES: seq<RegionState> := [
    RegionDefined, RegionValidating, RegionOnline, RegionDegraded, RegionDraining, RegionReconfiguring,
    RegionRevalidationRequired, RegionOffline, RegionFailed, RegionRetired]

  /** A state's code is its place in the declaration, so that casting the code gives the state back. */
  lemma StateCodes(d: DeviceState, r: RegionState)
    ensures DeviceStateCode(d) < |DEVICE_STATES| && DEVICE_STATES[DeviceStateCode(d)] == d
    ensures RegionStateCode(r) < |REGION_STATES| && REGION_STATES[RegionStateCode(r)] == r
  {}

  // ---- messages ----

  /** What a device message carries; the state is the code as cast, with the online mark taking precedence. */
  datatype DeviceNotice = DeviceNotice(
    generation: u64, totalPhysicalBytes: u64, onlineBytes: u64, id: Str, host: Str, volatility: Code, state: Code,
    provenance: Code, locality: Code, acceleratorAccess: Code, evidenceCurrent: bool)

  datatype ReserveNotice = ReserveNotice(bytes: u64, consumer: Str)

  datatype PoolNotice = PoolNotice(id: Str, generation: u64, members: seq<PoolMember>)

  datatype RegionNotice = RegionNotice(
    id: Str, generation: u64, pool: Str, members: seq<Str>, capacity: u64, locality: Code, tier: Code, state: Code)

  function NoticeOf(d: Device): DeviceNotice {
    DeviceNotice(d.generation, d.totalPhysicalBytes, d.onlineBytes, d.id, d.host, d.volatility,
                 DeviceStateCode(d.state), d.provenance, d.economics.locality, d.acceleratorAccess, d.evidenceCurrent)
  }

  ghost function WNotice(d: Device, tail: seq<byte>): seq<byte> {
    WU64(d.generation, WU64(d.totalPhysicalBytes, WU64(d.onlineBytes, WStr(d.id, WStr(d.host, WU32(d.volatility,
      WU32(DeviceStateCode(d.state), WU32(d.provenance, WU32(d.economics.locality, WU32(d.acceleratorAccess,
      WFlag(d.evidenceCurrent, WFlag(d.state.Online?, tail))))))))))))
  }

  function ReadNotice(len: nat, b: seq<byte>): Parsed<DeviceNotice> {
    var (generation, b) :- ReadU64(len, b);
    var (total, b) :- ReadU64(len, b);
    var (online, b) :- ReadU64(len, b);
    var (id, b) :- ReadStr(len, b);
    var (host, b) :- ReadStr(len, b);
    var (volatility, b) :- ReadU32(len, b);
    var (state, b) :- ReadU32(len, b);
    var (provenance, b) :- ReadU32(len, b);
    var (locality, b) :- ReadU32(len, b);
    var (accelerator, b) :- ReadU32(len, b);
    var (current, b) :- ReadFlag(len, b);
    var (isOnline, b) :- ReadFlag(len, b);
    Ok((DeviceNotice(generation, total, online, id, host, volatility,
                     if isOnline then DeviceStateCode(Online) else state, provenance, locality, accelerator,
                     current), b))
  }

  ghost function WReserve(m: ReserveNotice, tail: seq<byte>): seq<byte> {
    WU64(m.bytes, WStr(m.consumer, tail))
  }

  function ReadReserve(len: nat, b: seq<byte>): Parsed<ReserveNotice> {
    var (bytes, b) :- ReadU64(len, b);
    var (consumer, b) :- ReadStr(len, b);
    Ok((ReserveNotice(bytes, consumer), b))
  }

  ghost function WPoolNotice(m: PoolNotice, tail: seq<byte>): seq<byte> {
    WStr(m.id, WU64(m.generation, WMembers(m.members, tail)))
  }

  function ReadPoolNotice(len: nat, b: seq<byte>): Parsed<PoolNotice> {
    var (id, b) :- ReadStr(len, b);
    var (generation, b) :- ReadU64(len, b);
    var (members, b) :- ReadMembers(len, b);
    Ok((PoolNotice(id, generation, members), b))
  }

  ghost function WRegionNotice(m: RegionNotice, tail: seq<byte>): seq<byte> {
    WStr(m.id, WU64(m.generation, WStr(m.pool, WStrs(m.members, WU64(m.capacity, WU32(m.locality, WU32(m.tier,
      WU32(m.state, tail))))))))
  }

  function ReadRegionNotice(len: nat, b: seq<byte>): Parsed<RegionNotice> {
    var (id, b) :- ReadStr(len, b);
    var (generation, b) :- ReadU64(len, b);
    var (pool, b) :- ReadStr(len, b);
    var (members, b) :- ReadStrs(len, b, MAX_RECORDS);
    var (capacity, b) :- ReadU64(len, b);
    var (locality, b) :- ReadU32(len, b);
    var (tier, b) :- ReadU32(len, b);
    var (state, b) :- ReadU32(len, b);
    Ok((RegionNotice(id, generation, pool, members, capacity, locality, tier, state), b))
  }

  /** A message decodes only if its payload holds nothing else. */
  function Whole<T>(p: Parsed<T>): Outcome<T> {
    var (x, rest) :- p;
    if rest != [] then Refused else Ok(x)
  }

  function DecodeDevice(p: seq<byte>): Outcome<DeviceNotice> { Whole(ReadNotice(|p|, p)) }
  function DecodeReserve(p: seq<byte>): Outcome<ReserveNotice> { Whole(ReadReserve(|p|, p)) }
  function DecodePool(p: seq<byte>): Outcome<PoolNotice> { Whole(ReadPoolNotice(|p|, p)) }
  function DecodeRegion(p: seq<byte>): Outcome<RegionNotice> { Whole(ReadRegionNotice(|p|, p)) }

  // ---- the records that decoded messages become ----

  const PROVENANCE_SYNTHETIC: Code := 2

  // "-boot", "control:", "VEND:0001 DEVI:0001", "Type-3", "memory", "multiprocess", "default"
  const BOOT_SUFFIX: Str := [45, 98, 111, 111, 116]
  const RAW_PREFIX: Str := [99, 111, 110, 116, 114, 111, 108, 58]
  const VENDOR: Str := [86, 69, 78, 68, 58, 48, 48, 48, 49, 32, 68, 69, 86, 73, 58, 48, 48, 48, 49]
  const DEVICE_CLASS: Str := [84, 121, 112, 101, 45, 51]
  const DEVICE_TYPE: Str := [109, 101, 109, 111, 114, 121]
  const LIFECYCLE_NOTE: Str := [109, 117, 108, 116, 105, 112, 114, 111, 99, 101, 115, 115]
  const ADMISSION_POLICY: Str := [100, 101, 102, 97, 117, 108, 116]

  /** The record of a device message whose state code is the given state. */
  function DeviceOf(n: DeviceNotice, state: DeviceState): Device
    requires n.state == DeviceStateCode(state)
  {
    BLANK_DEVICE.(
      id := n.id, host := n.host, generation := n.generation, totalPhysicalBytes := n.totalPhysicalBytes,
      onlineBytes := n.onlineBytes, volatility := n.volatility, state := state, provenance := n.provenance,
      economics := NO_ECONOMICS.(locality := n.locality), acceleratorAccess := n.acceleratorAccess,
      evidenceCurrent := n.evidenceCurrent, bootId := n.id + BOOT_SUFFIX, deviceClass := DEVICE_CLASS,
      deviceType := DEVICE_TYPE, vendorDeviceId := VENDOR, rawIdentity := RAW_PREFIX + n.id,
      health := HEALTH_HEALTHY, lifecycleNote := LIFECYCLE_NOTE)
  }

  /** The record the coordinator makes of a pool message. */
  function PoolOf(n: PoolNotice): Pool {
    BLANK_POOL.(
      id := n.id, generation := n.generation, members := n.members, admissionPolicy := ADMISSION_POLICY,
      state := PoolAvailable, healthSummary := HEALTH_HEALTHY, provenance := PROVENANCE_SYNTHETIC,
      evidenceCurrent := true, evidenceGeneration := 1)
  }

  /** The record of a region message whose state code is the given state. */
  function RegionOf(n: RegionNotice, state: RegionState): Region
    requires n.state == RegionStateCode(state)
  {
    BLANK_REGION.(
      id := n.id, generation := n.generation, pool := n.pool, members := n.members, capacity := n.capacity,
      locality := n.locality, tier := n.tier, state := state, interleaved := |n.members| > 1,
      health := HEALTH_HEALTHY, provenance := PROVENANCE_SYNTHETIC, evidenceCurrent := true, evidenceGeneration := 1)
  }

  // ---- round trips, with anything appended refused ----

  /** Every field comes back exactly when both strings are within bounds and nothing follows. */
  lemma DeviceMessage(d: Device, extra: seq<byte>)
    requires Small(d.id) && Small(d.host)
    ensures DecodeDevice(WNotice(d, extra)) ==
      if ShortStr(d.id) && ShortStr(d.host) && extra == [] then Ok(NoticeOf(d)) else Refused
  {
    var len := |WNotice(d, extra)|;
    ReadWrittenFlag(len, d.state.Online?, extra);
    var t1 := WFlag(d.state.Online?, extra);
    ReadWrittenFlag(len, d.evidenceCurrent, t1);
    var t2 := WFlag(d.evidenceCurrent, t1);
    ReadWrittenU32(len, d.acceleratorAccess, t2);
    var t3 := WU32(d.acceleratorAccess, t2);
    ReadWrittenU32(len, d.economics.locality, t3);
    var t4 := WU32(d.economics.locality, t3);
    ReadWrittenU32(len, d.provenance, t4);
    var t5 := WU32(d.provenance, t4);
    ReadWrittenU32(len, DeviceStateCode(d.state), t5);
    var t6 := WU32(DeviceStateCode(d.state), t5);
    ReadWrittenU32(len, d.volatility, t6);
    var t7 := WU32(d.volatility, t6);
    ReadWrittenStr(len, d.host, t7);
    var t8 := WStr(d.host, t7);
    ReadWrittenStr(len, d.id, t8);
    var t9 := WStr(d.id, t8);
    ReadWrittenU64(len, d.onlineBytes, t9);
    var t10 := WU64(d.onlineBytes, t9);
    ReadWrittenU64(len, d.totalPhysicalBytes, t10);
    var t11 := WU64(d.totalPhysicalBytes, t10);
    ReadWrittenU64(len, d.generation, t11);
  }

  lemma ReserveMessage(m: ReserveNotice, extra: seq<byte>)
    requires Small(m.consumer)
    ensures DecodeReserve(WReserve(m, extra)) == if ShortStr(m.consumer) && extra == [] then Ok(m) else Refused
  {
    var len := |WReserve(m, extra)|;
    ReadWrittenStr(len, m.consumer, extra);
    var t1 := WStr(m.consumer, extra);
    ReadWrittenU64(len, m.bytes, t1);
  }

  /** A pool message recovers its whole member list, of any length within bounds, in order. */
  lemma PoolMessage(m: PoolNotice, extra: seq<byte>)
    requires Small(m.id) && MembersSized(m.members)
    ensures DecodePool(WPoolNotice(m, extra)) ==
      if ShortStr(m.id) && MembersFit(m.members) && extra == [] then Ok(m) else Refused
  {
    var len := |WPoolNotice(m, extra)|;
    ReadWrittenStr(len, m.id, WU64(m.generation, WMembers(m.members, extra)));
    ReadWrittenU64(len, m.generation, WMembers(m.members, extra));
    ReadWrittenMembers(len, m.members, extra);
  }

  lemma RegionMessage(m: RegionNotice, extra: seq<byte>)
    requires Small(m.id) && Small(m.pool) && Sized(m.members)
    ensures DecodeRegion(WRegionNotice(m, extra)) ==
      if ShortStr(m.id) && ShortStr(m.pool) && StrsFit(m.members, 100000) && extra == [] then Ok(m) else Refused
  {
    var len := |WRegionNotice(m, extra)|;
    ReadWrittenU32(len, m.state, extra);
    var t1 := WU32(m.state, extra);
    ReadWrittenU32(len, m.tier, t1);
    var t2 := WU32(m.tier, t1);
    ReadWrittenU32(len, m.locality, t2);
    var t3 := WU32(m.locality, t2);
    ReadWrittenU64(len, m.capacity, t3);
    var t4 := WU64(m.capacity, t3);
    ReadWrittenStrs(len, m.members, t4, MAX_RECORDS);
    var t5 := WStrs(m.members, t4);
    ReadWrittenStr(len, m.pool, t5);
    var t6 := WStr(m.pool, t5);
    ReadWrittenU64(len, m.generation, t6);
    var t7 := WU64(m.generation, t6);
    ReadWrittenStr(len, m.id, t7);
  }

  // ---- the code ----

  method PutNotice(out: Sink, d: Device)
    modifies out
    ensures forall t :: out.bytes + t == old(out.bytes) + WNotice(d, t)
  {
    out.PutU64(d.generation);
    out.PutU64(d.totalPhysicalBytes);
    out.PutU64(d.onlineBytes);
    out.PutStr(d.id);
    out.PutStr(d.host);
    out.PutU32(d.volatility);
    out.PutU32(DeviceStateCode(d.state));
    out.PutU32(d.provenance);
    out.PutU32(d.economics.locality);
    out.PutU32(d.acceleratorAccess);
    out.PutFlag(d.evidenceCurrent);
    out.PutFlag(d.state.Online?);
  }

  method EncodeDevice(d: Device) returns (p: seq<byte>)
    ensures p == WNotice(d, [])
  {
    var out := new Sink();
    PutNotice(out, d);
    p := out.bytes;
    assert p + [] == p && [] + WNotice(d, []) == WNotice(d, []);
  }

  method EncodeReserve(m: ReserveNotice) returns (p: seq<byte>)
    ensures p == WReserve(m, [])
  {
    var out := new Sink();
    out.PutU64(m.bytes);
    out.PutStr(m.consumer);
    p := out.bytes;
    assert p + [] == p && [] + WReserve(m, []) == WReserve(m, []);
  }

  method ParseReserve(p: seq<byte>) returns (o: Outcome<ReserveNotice>)
    requires |p| <= U64_MAX
    ensures o == DecodeReserve(p)
  {
    var r := new Reader(p);
    var bytes :- r.U64();
    var consumer :- r.String();
    if r.pos != |p| { return Refused; }
    o := Ok(ReserveNotice(bytes, consumer));
  }

  method EncodePool(m: PoolNotice) returns (p: seq<byte>)
    ensures p == WPoolNotice(m, [])
  {
    var out := new Sink();
    out.PutStr(m.id);
    out.PutU64(m.generation);
    IO.PutMembers(out, m.members);
    p := out.bytes;
    assert p + [] == p && [] + WPoolNotice(m, []) == WPoolNotice(m, []);
  }

  method PutRegionNotice(out: Sink, m: RegionNotice)
    modifies out
    ensures forall t :: out.bytes + t == old(out.bytes) + WRegionNotice(m, t)
  {
    out.PutStr(m.id);
    out.PutU64(m.generation);
    out.PutStr(m.pool);
    out.PutStrs(m.members);
    out.PutU64(m.capacity);
    out.PutU32(m.locality);
    out.PutU32(m.tier);
    out.PutU32(m.state);
  }

  method EncodeRegion(m: RegionNotice) returns (p: seq<byte>)
    ensures p == WRegionNotice(m, [])
  {
    var out := new Sink();
    PutRegionNotice(out, m);
    p := out.bytes;
    assert p + [] == p && [] + WRegionNotice(m, []) == WRegionNotice(m, []);
  }

  method ParsePool(p: seq<byte>) returns (o: Outcome<PoolNotice>)
    requires |p| <= U64_MAX
    ensures o == DecodePool(p)
  {
    var r := new Reader(p);
    var id :- r.String();
    var generation :- r.U64();
    var members :- IO.GetMembers(r);
    if r.pos != |p| { return Refused; }
    o := Ok(PoolNotice(id, generation, members));
  }

  method ParseRegion(p: seq<byte>) returns (o: Outcome<RegionNotice>)
    requires |p| <= U64_MAX
    ensures o == DecodeRegion(p)
  {
    var r := new Reader(p);
    var id :- r.String();
    var generation :- r.U64();
    var pool :- r.String();
    var members :- r.Strings(MAX_RECORDS);
    var capacity :- r.U64();
    var locality :- r.U32();
    var tier :- r.U32();
    var state :- r.U32();
    if r.pos != |p| { return Refused; }
    o := Ok(RegionNotice(id, generation, pool, members, capacity, locality, tier, state));
  }

  method GetNotice(r: Reader) returns (o: Outcome<DeviceNotice>)
    requires r.Valid()
    modifies r
    ensures r.Valid() && Mirrors(ReadNotice(|r.data|, old(r.Rest())), o, r.Rest())
  {
    var generation :- r.U64();
    var total :- r.U64();
    var online :- r.U64();
    var id :- r.String();
    var host :- r.String();
    var volatility :- r.U32();
    var state :- r.U32();
    var provenance :- r.U32();
    var locality :- r.U32();
    var accelerator :- r.U32();
    var current :- r.Flag();
    var isOnline :- r.Flag();
    if isOnline { state := DeviceStateCode(Online); }
    o := Ok(DeviceNotice(generation, total, online, id, host, volatility, state, provenance, locality, accelerator,
                         current));
  }

  method ParseDevice(p: seq<byte>) returns (o: Outcome<DeviceNotice>)
    requires |p| <= U64_MAX
    ensures o == DecodeDevice(p)
  {
    var r := new Reader(p);
    var notice :- GetNotice(r);
    if r.pos != |p| { return Refused; }
    o := Ok(notice);
  }
}
