/** The state file: its payload, and the envelope around it, as bytes. */
module Persistence {
  import opened Base
  import opened Order
  import opened Records
  import opened Packing
  import opened Crc
  import opened Streams

  const MAX_RECORDS: nat := 100000
  const MAX_CAPABILITIES: nat := 256
  const MAX_LABELS: nat := 4096

  // ---- capabilities ----

  ghost function WCapability(c: Capability, tail: seq<byte>): seq<byte> {
    WU32(c.klass, WU32(c.support, WU64(c.version, WU32(c.provenance, WU64(c.evidenceGeneration,
      WFlag(c.evidenceCurrent, WStr(c.constraints, tail)))))))
  }

  function ReadCapability(len: nat, b: seq<byte>): Parsed<Capability> {
    var (klass, b) :- ReadU32(len, b);
    var (support, b) :- ReadU32(len, b);
    var (version, b) :- ReadU64(len, b);
    var (provenance, b) :- ReadU32(len, b);
    var (evidence, b) :- ReadU64(len, b);
    var (current, b) :- ReadFlag(len, b);
    var (constraints, b) :- ReadStr(len, b);
    Ok((Capability(klass, support, version, provenance, evidence, current, constraints), b))
  }

  /** The class as the signed enumeration that the map orders by. */
  function ClassOrder(c: Capability): int {
    if c.klass < 0x8000_0000 then c.klass else c.klass - WORDS
  }

  /** Capabilities are filed by class; a later one of the same class replaces the earlier. */
  function SetCapability(cs: seq<Capability>, c: Capability): seq<Capability> {
    if cs == [] || ClassOrder(cs[|cs| - 1]) < ClassOrder(c) then cs + [c]
    else if cs[|cs| - 1].klass == c.klass then cs[..|cs| - 1] + [c]
    else SetCapability(cs[..|cs| - 1], c) + [cs[|cs| - 1]]
  }

  function CapabilitySet(cs: seq<Capability>): seq<Capability> {
    if cs == [] then [] else SetCapability(CapabilitySet(cs[..|cs| - 1]), cs[|cs| - 1])
  }

  predicate ByClass(cs: seq<Capability>) {
    forall i, j | 0 <= i < j < |cs| :: ClassOrder(cs[i]) < ClassOrder(cs[j])
  }

  lemma {:induction false} CapabilitySetOfMap(cs: seq<Capability>)
    requires ByClass(cs)
    ensures CapabilitySet(cs) == cs
  {
    if cs != [] { CapabilitySetOfMap(cs[..|cs| - 1]); }
  }

  lemma OneClass(c: Capability, d: Capability)
    ensures ClassOrder(c) == ClassOrder(d) <==> c.klass == d.klass
  {}

  /** Setting a capability replaces the one of its class, or adds it, and keeps the others and their order. */
  lemma {:induction false} SetCapabilityExact(cs: seq<Capability>, c: Capability)
    requires ByClass(cs)
    ensures ByClass(SetCapability(cs, c))
    ensures forall x :: x in SetCapability(cs, c) <==> x == c || (x in cs && x.klass != c.klass)
  {
    if cs != [] {
      var n := |cs| - 1;
      var init, last := cs[..n], cs[n];
      assert cs == init + [last];
      OneClass(c, last);
      forall x | x in cs ensures ClassOrder(x) == ClassOrder(c) <==> x.klass == c.klass { OneClass(x, c); }
      if ClassOrder(c) < ClassOrder(last) {
        SetCapabilityExact(init, c);
        var more := SetCapability(init, c);
        forall i | 0 <= i < |more| ensures ClassOrder(more[i]) < ClassOrder(last) {
          assert more[i] in more;
        }
      }
    }
  }

  ghost function WCapabilities(cs: seq<Capability>, tail: seq<byte>): seq<byte> {
    WSize(|cs|, WList(WCapability, cs, tail))
  }

  function ReadCapabilityList(len: nat, b: seq<byte>): Parsed<seq<Capability>> {
    var (n, b) :- ReadCount(len, b, MAX_CAPABILITIES);
    ReadList(ReadCapability, len, n, b, [])
  }

  function ReadCapabilities(len: nat, b: seq<byte>): Parsed<seq<Capability>> {
    var (cs, b) :- ReadCapabilityList(len, b);
    Ok((CapabilitySet(cs), b))
  }

  // ---- devices ----

  const NO_ECONOMICS := Economics(
    LOCALITY_UNKNOWN, TIER_UNKNOWN, EVIDENCE_UNKNOWN, PROVENANCE_UNSUPPORTED, 0, 0, 0, 0, false, [])

  const BLANK_DEVICE := Device(
    [], 0, [], [], [], [], [], [], [], [], 0, 0, VOLATILITY_UNKNOWN, SHARING_UNKNOWN, false, false,
    ACCELERATOR_UNKNOWN, HEALTH_UNKNOWN, Discovered, [], NO_ECONOMICS, PROVENANCE_UNSUPPORTED, 0, false, [], [])

  function Named(
    id: Str, generation: u64, boot: Str, raw: Str, vendor: Str, class_: Str, kind: Str, host: Str): Device
  {
    BLANK_DEVICE.(id := id, generation := generation, bootId := boot, rawIdentity := raw, vendorDeviceId := vendor,
                  deviceClass := class_, deviceType := kind, host := host)
  }

  ghost function WNames(d: Device, tail: seq<byte>): seq<byte> {
    WStr(d.id, WU64(d.generation, WStr(d.bootId, WStr(d.rawIdentity, WStr(d.vendorDeviceId, WStr(d.deviceClass,
      WStr(d.deviceType, WStr(d.host, tail))))))))
  }

  function ReadNames(len: nat, b: seq<byte>): Parsed<Device> {
    var (id, b) :- ReadStr(len, b);
    var (generation, b) :- ReadU64(len, b);
    var (boot, b) :- ReadStr(len, b);
    var (raw, b) :- ReadStr(len, b);
    var (vendor, b) :- ReadStr(len, b);
    var (class_, b) :- ReadStr(len, b);
    var (kind, b) :- ReadStr(len, b);
    var (host, b) :- ReadStr(len, b);
    Ok((Named(id, generation, boot, raw, vendor, class_, kind, host), b))
  }

  /** The port and switch lists are always written empty, and dropped when read. */
  ghost function WLinks(tail: seq<byte>): seq<byte> {
    WStrs([], WStrs([], tail))
  }

  function ReadLinks(len: nat, b: seq<byte>): Parsed<(seq<Str>, seq<Str>)> {
    var (ports, b) :- ReadStrs(len, b, MAX_LABELS);
    var (switches, b) :- ReadStrs(len, b, MAX_LABELS);
    Ok(((ports, switches), b))
  }

  ghost function WIdentity(d: Device, tail: seq<byte>): seq<byte> {
    WNames(d, WLinks(tail))
  }

  function ReadIdentity(len: nat, b: seq<byte>): Parsed<Device> {
    var (d, b) :- ReadNames(len, b);
    var (_, b) :- ReadLinks(len, b);
    Ok((d, b))
  }

  ghost function WTraits(d: Device, tail: seq<byte>): seq<byte> {
    WU64(d.totalPhysicalBytes, WU64(d.onlineBytes, WU32(d.volatility, WU32(d.sharing, WFlag(d.multiHostCapable,
      WFlag(d.interleaveCapable, WU32(d.acceleratorAccess, WU32(d.provenance, WU64(d.evidenceGeneration,
      WStr(d.firmwareMetadata, WStr(d.lifecycleNote, tail)))))))))))
  }

  function ReadTraits(len: nat, b: seq<byte>, d: Device): Parsed<Device> {
    var (total, b) :- ReadU64(len, b);
    var (online, b) :- ReadU64(len, b);
    var (volatility, b) :- ReadU32(len, b);
    var (sharing, b) :- ReadU32(len, b);
    var (multi, b) :- ReadFlag(len, b);
    var (interleave, b) :- ReadFlag(len, b);
    var (accelerator, b) :- ReadU32(len, b);
    var (provenance, b) :- ReadU32(len, b);
    var (evidence, b) :- ReadU64(len, b);
    var (firmware, b) :- ReadStr(len, b);
    var (note, b) :- ReadStr(len, b);
    Ok((d.(totalPhysicalBytes := total, onlineBytes := online, volatility := volatility, sharing := sharing,
           multiHostCapable := multi, interleaveCapable := interleave, acceleratorAccess := accelerator,
           provenance := provenance, evidenceGeneration := evidence, firmwareMetadata := firmware,
           lifecycleNote := note), b))
  }

  ghost function WEconomics(e: Economics, tail: seq<byte>): seq<byte> {
    WU32(e.locality, WU32(e.tier, WU32(e.evidenceClass, WU32(e.provenance, WU64(e.latency, WU64(e.bandwidth,
      WU32(e.hopCount, WU64(e.migrationCost, WFlag(e.failsafeValid, WStr(e.notes, tail))))))))))
  }

  function ReadEconomics(len: nat, b: seq<byte>): Parsed<Economics> {
    var (locality, b) :- ReadU32(len, b);
    var (tier, b) :- ReadU32(len, b);
    var (class_, b) :- ReadU32(len, b);
    var (provenance, b) :- ReadU32(len, b);
    var (latency, b) :- ReadU64(len, b);
    var (bandwidth, b) :- ReadU64(len, b);
    var (hops, b) :- ReadU32(len, b);
    var (migration, b) :- ReadU64(len, b);
    var (failsafe, b) :- ReadFlag(len, b);
    var (notes, b) :- ReadStr(len, b);
    Ok((Economics(locality, tier, class_, provenance, latency, bandwidth, hops, migration, failsafe, notes), b))
  }

  /** Access economics take 48 bytes, and then the notes. */
  lemma EconomicsLayout(e: Economics, t: seq<byte>)
    ensures var b := WEconomics(e, t);
      && |b| >= 48 && b[0..4] == U32Bytes(e.locality) && b[4..8] == U32Bytes(e.tier)
      && b[8..12] == U32Bytes(e.evidenceClass) && b[12..16] == U32Bytes(e.provenance)
      && b[16..24] == U64Bytes(e.latency) && b[24..32] == U64Bytes(e.bandwidth) && b[32..36] == U32Bytes(e.hopCount)
      && b[36..44] == U64Bytes(e.migrationCost) && b[44..48] == U32Bytes(if e.failsafeValid then 1 else 0)
      && b[48..] == WStr(e.notes, t)
  {}

  /** A device's sizes and traits take 48 bytes, and then two notes. */
  lemma TraitsLayout(d: Device, t: seq<byte>)
    ensures var b := WTraits(d, t);
      && |b| >= 48 && b[0..8] == U64Bytes(d.totalPhysicalBytes) && b[8..16] == U64Bytes(d.onlineBytes)
      && b[16..20] == U32Bytes(d.volatility) && b[20..24] == U32Bytes(d.sharing)
      && b[24..28] == U32Bytes(if d.multiHostCapable then 1 else 0)
      && b[28..32] == U32Bytes(if d.interleaveCapable then 1 else 0)
      && b[32..36] == U32Bytes(d.acceleratorAccess) && b[36..40] == U32Bytes(d.provenance)
      && b[40..48] == U64Bytes(d.evidenceGeneration)
      && b[48..] == WStr(d.firmwareMetadata, WStr(d.lifecycleNote, t))
  {}

  ghost function WDevice(d: Device, tail: seq<byte>): seq<byte> {
    WIdentity(d, WTraits(d, WCapabilities(d.capabilities, WEconomics(d.economics, tail))))
  }

  function ReadDevice(len: nat, b: seq<byte>): Parsed<Device> {
    var (d, b) :- ReadIdentity(len, b);
    var (d, b) :- ReadTraits(len, b, d);
    var (cs, b) :- ReadCapabilities(len, b);
    var (e, b) :- ReadEconomics(len, b);
    Ok((d.(capabilities := cs, economics := e), b))
  }

  // ---- regions ----

  const BLANK_REGION := Region(
    [], 0, [], [], [], 0, false, RegionDefined, [], [], [], [], LOCALITY_UNKNOWN, TIER_UNKNOWN, HEALTH_UNKNOWN,
    0, 0, PROVENANCE_UNSUPPORTED, 0, false, false)

  ghost function WRegion(r: Region, tail: seq<byte>): seq<byte> {
    WStr(r.id, WU64(r.generation, WStr(r.pool, WStrs(r.members, WStr(r.interleaveSet, WU64(r.capacity,
      WFlag(r.interleaved, WU32(r.provenance, WU64(r.evidenceGeneration, WFlag(r.deviceLocal, tail))))))))))
  }

  function ReadRegion(len: nat, b: seq<byte>): Parsed<Region> {
    var (id, b) :- ReadStr(len, b);
    var (generation, b) :- ReadU64(len, b);
    var (pool, b) :- ReadStr(len, b);
    var (members, b) :- ReadStrs(len, b, MAX_RECORDS);
    var (interleaveSet, b) :- ReadStr(len, b);
    var (capacity, b) :- ReadU64(len, b);
    var (interleaved, b) :- ReadFlag(len, b);
    var (provenance, b) :- ReadU32(len, b);
    var (evidence, b) :- ReadU64(len, b);
    var (deviceLocal, b) :- ReadFlag(len, b);
    Ok((BLANK_REGION.(id := id, generation := generation, pool := pool, members := members,
                      interleaveSet := interleaveSet, capacity := capacity, interleaved := interleaved,
                      provenance := provenance, evidenceGeneration := evidence, deviceLocal := deviceLocal), b))
  }

  // ---- pools ----

  ghost function WMember(m: PoolMember, tail: seq<byte>): seq<byte> {
    WStr(m.device, WU64(m.deviceGeneration, WU64(m.nominalBytes, WFlag(m.online, WFlag(m.healthOk,
      WStr(m.failureDomain, WU32(m.locality, tail)))))))
  }

  function ReadMember(len: nat, b: seq<byte>): Parsed<PoolMember> {
    var (device, b) :- ReadStr(len, b);
    var (generation, b) :- ReadU64(len, b);
    var (nominal, b) :- ReadU64(len, b);
    var (online, b) :- ReadFlag(len, b);
    var (healthOk, b) :- ReadFlag(len, b);
    var (domain, b) :- ReadStr(len, b);
    var (locality, b) :- ReadU32(len, b);
    Ok((PoolMember(device, generation, nominal, online, healthOk, domain, locality), b))
  }

  ghost function WMembers(ms: seq<PoolMember>, tail: seq<byte>): seq<byte> {
    WSize(|ms|, WList(WMember, ms, tail))
  }

  function ReadMembers(len: nat, b: seq<byte>): Parsed<seq<PoolMember>> {
    var (n, b) :- ReadCount(len, b, MAX_RECORDS);
    ReadList(ReadMember, len, n, b, [])
  }

  const BLANK_POOL := Pool(
    [], 0, [], 0, 0, 0, 0, 0, [], [], LOCALITY_UNKNOWN, HEALTH_UNKNOWN, PoolDefined,
    PROVENANCE_UNSUPPORTED, 0, false, [])

  ghost function WCounters(p: Pool, tail: seq<byte>): seq<byte> {
    WU64(p.totalGoverned, WU64(p.committed, WU64(p.reserved, WU64(p.draining, WU64(p.unavailable, tail)))))
  }

  function ReadCounters(len: nat, b: seq<byte>, p: Pool): Parsed<Pool> {
    var (total, b) :- ReadU64(len, b);
    var (committed, b) :- ReadU64(len, b);
    var (reserved, b) :- ReadU64(len, b);
    var (draining, b) :- ReadU64(len, b);
    var (unavailable, b) :- ReadU64(len, b);
    Ok((p.(totalGoverned := total, committed := committed, reserved := reserved, draining := draining,
           unavailable := unavailable), b))
  }

  /** Five counters of eight bytes, in this order. */
  lemma CountersLayout(p: Pool, t: seq<byte>)
    ensures var b := WCounters(p, t);
      && |b| == 40 + |t| && b[0..8] == U64Bytes(p.totalGoverned) && b[8..16] == U64Bytes(p.committed)
      && b[16..24] == U64Bytes(p.reserved) && b[24..32] == U64Bytes(p.draining)
      && b[32..40] == U64Bytes(p.unavailable) && b[40..] == t
  {}

  ghost function WPolicy(p: Pool, tail: seq<byte>): seq<byte> {
    WStr(p.admissionPolicy, WStrs(p.failureDomains, WU32(p.localityDistribution, WU32(p.healthSummary,
      WU32(p.provenance, WU64(p.evidenceGeneration, WFlag(p.evidenceCurrent, WStr(p.lifecycleNote, tail))))))))
  }

  function ReadPolicy(len: nat, b: seq<byte>, p: Pool): Parsed<Pool> {
    var (admission, b) :- ReadStr(len, b);
    var (domains, b) :- ReadStrs(len, b, MAX_LABELS);
    var (locality, b) :- ReadU32(len, b);
    var (health, b) :- ReadU32(len, b);
    var (provenance, b) :- ReadU32(len, b);
    var (evidence, b) :- ReadU64(len, b);
    var (current, b) :- ReadFlag(len, b);
    var (note, b) :- ReadStr(len, b);
    Ok((p.(admissionPolicy := admission, failureDomains := domains, localityDistribution := locality,
           healthSummary := health, provenance := provenance, evidenceGeneration := evidence,
           evidenceCurrent := current, lifecycleNote := note), b))
  }

  ghost function WPool(p: Pool, tail: seq<byte>): seq<byte> {
    WStr(p.id, WU64(p.generation, WMembers(p.members, WCounters(p, WPolicy(p, tail)))))
  }

  function ReadPool(len: nat, b: seq<byte>): Parsed<Pool> {
    var (id, b) :- ReadStr(len, b);
    var (generation, b) :- ReadU64(len, b);
    var (members, b) :- ReadMembers(len, b);
    var (p, b) :- ReadCounters(len, b, BLANK_POOL.(id := id, generation := generation, members := members));
    ReadPolicy(len, b, p)
  }

  // ---- the payload ----

  /** The records of a map in key order. */
  function Values<T>(m: map<Str, T>): seq<T> {
    SortedKeysCover(m.Keys);
    ValuesAlong(m, SortedKeys(m.Keys))
  }

  function ValuesAlong<T>(m: map<Str, T>, keys: seq<Str>): (vs: seq<T>)
    requires forall k | k in keys :: k in m
    ensures |vs| == |keys| && forall i | 0 <= i < |keys| :: vs[i] == m[keys[i]]
  {
    seq(|keys|, i requires 0 <= i < |keys| => m[keys[i]])
  }

  /** Records filed under their own ids, later ones replacing earlier ones. */
  function FileAll<T>(id: T -> Str, xs: seq<T>): map<Str, T> {
    if xs == [] then map[]
    else FileAll(id, xs[..|xs| - 1])[id(xs[|xs| - 1]) := xs[|xs| - 1]]
  }

  /** The record under an id is the last one that carries it. */
  lemma {:induction false} FileAllLast<T>(id: T -> Str, xs: seq<T>, i: nat)
    requires i < |xs| && forall j | i < j < |xs| :: id(xs[j]) != id(xs[i])
    ensures id(xs[i]) in FileAll(id, xs) && FileAll(id, xs)[id(xs[i])] == xs[i]
  {
    if i < |xs| - 1 { FileAllLast(id, xs[..|xs| - 1], i); }
  }

  lemma {:induction false} FileAllKeys<T>(id: T -> Str, xs: seq<T>, k: Str)
    ensures k in FileAll(id, xs) <==> exists i :: 0 <= i < |xs| && id(xs[i]) == k
  {
    if xs != [] {
      var n := |xs| - 1;
      FileAllKeys(id, xs[..n], k);
      if exists i :: 0 <= i < n && id(xs[i]) == k {
        var i :| 0 <= i < n && id(xs[i]) == k;
        assert xs[..n][i] == xs[i];
      }
    }
  }

  function DeviceId(d: Device): Str { d.id }
  function RegionId(r: Region): Str { r.id }
  function PoolId(p: Pool): Str { p.id }

  ghost function WRegistry<T>(w: (T, seq<byte>) -> seq<byte>, m: map<Str, T>, tail: seq<byte>): seq<byte> {
    WSize(|m|, WList(w, Values(m), tail))
  }

  ghost function Body(ps: Persisted): seq<byte> {
    WU64(ps.policyGeneration, WRegistry(WDevice, ps.devices, WRegistry(WRegion, ps.regions,
      WRegistry(WPool, ps.pools, []))))
  }

  /** Refused when a registry is too large; otherwise the body and its checksum. */
  ghost function Serialize(ps: Persisted): Outcome<seq<byte>> {
    if |ps.devices| > MAX_RECORDS || |ps.regions| > MAX_RECORDS || |ps.pools| > MAX_RECORDS then Refused
    else Ok(Footed(Body(ps)))
  }

  ghost function Footed(body: seq<byte>): seq<byte> {
    body + U32Bytes(Crc32(body))
  }

  /** A count, that many records, and the records filed by id. */
  function ReadRegistry<T>(r: (nat, seq<byte>) -> Parsed<T>, id: T -> Str, len: nat, b: seq<byte>)
    : Parsed<map<Str, T>>
  {
    var (n, b) :- ReadCount(len, b, MAX_RECORDS);
    var (xs, b) :- ReadList(r, len, n, b, []);
    Ok((FileAll(id, xs), b))
  }

  function ReadBody(len: nat, b: seq<byte>): Parsed<Persisted> {
    var (policy, b) :- ReadU64(len, b);
    var (devices, b) :- ReadRegistry(ReadDevice, DeviceId, len, b);
    var (regions, b) :- ReadRegistry(ReadRegion, RegionId, len, b);
    var (pools, b) :- ReadRegistry(ReadPool, PoolId, len, b);
    Ok((Persisted(policy, devices, regions, pools), b))
  }

  /**
   * The first read takes eight bytes. With a shorter body its bounds test wraps: it runs into the checksum, so that
   * the next read is refused, or past the end of the payload when even the checksum does not make up eight bytes.
   */
  function ShortBody(payload: seq<byte>): Outcome<Persisted> {
    if |payload| < 8 then Overran else Refused
  }

  function Deserialize(payload: seq<byte>): Outcome<Persisted> {
    if |payload| < 4 then Refused
    else
      var body := payload[..|payload| - 4];
      if Crc32(body) != Load32(payload[|payload| - 4..]) then Refused
      else if |body| < 8 then ShortBody(payload)
      else
        var (ps, rest) :- ReadBody(|body|, body);
        if rest != [] then Refused else Ok(ps)
  }

  // ---- what survives ----

  function DurableDevice(d: Device): Device {
    d.(ports := [], switchAncestry := [], health := HEALTH_UNKNOWN, state := Discovered, evidenceCurrent := false)
  }

  function DurableRegion(r: Region): Region {
    r.(state := RegionDefined, decoders := [], windows := [], accessMode := [], consumerScope := [],
       locality := LOCALITY_UNKNOWN, tier := TIER_UNKNOWN, health := HEALTH_UNKNOWN, reserved := 0, committed := 0,
       evidenceCurrent := false)
  }

  function DurablePool(p: Pool): Pool {
    p.(state := PoolDefined)
  }

  function Kept<T>(kept: T -> T, m: map<Str, T>): map<Str, T> {
    map k | k in m :: kept(m[k])
  }

  /** The projection of a state that its file keeps. */
  function Durable(ps: Persisted): Persisted {
    Persisted(ps.policyGeneration, Kept(DurableDevice, ps.devices), Kept(DurableRegion, ps.regions),
              Kept(DurablePool, ps.pools))
  }

  // ---- bounds: what the reader takes, in numbers, and what the size fields can express ----

  predicate CapabilityFits(c: Capability) {
    ShortStr(c.constraints)
  }

  predicate IdentityFits(d: Device) {
    && ShortStr(d.id) && ShortStr(d.bootId) && ShortStr(d.rawIdentity) && ShortStr(d.vendorDeviceId)
    && ShortStr(d.deviceClass) && ShortStr(d.deviceType) && ShortStr(d.host)
  }

  predicate TraitsFit(d: Device) {
    ShortStr(d.firmwareMetadata) && ShortStr(d.lifecycleNote)
  }

  predicate CapabilitiesFit(cs: seq<Capability>) {
    |cs| <= 256 && All(CapabilityFits, cs)
  }

  predicate DeviceFits(d: Device) {
    IdentityFits(d) && TraitsFit(d) && CapabilitiesFit(d.capabilities) && ShortStr(d.economics.notes)
  }

  predicate RegionFits(r: Region) {
    ShortStr(r.id) && ShortStr(r.pool) && StrsFit(r.members, 100000) && ShortStr(r.interleaveSet)
  }

  predicate MemberFits(m: PoolMember) {
    ShortStr(m.device) && ShortStr(m.failureDomain)
  }

  predicate MembersFit(ms: seq<PoolMember>) {
    |ms| <= 100000 && All(MemberFits, ms)
  }

  predicate PoolFits(p: Pool) {
    && ShortStr(p.id) && MembersFit(p.members) && ShortStr(p.admissionPolicy)
    && StrsFit(p.failureDomains, 4096) && ShortStr(p.lifecycleNote)
  }

  ghost predicate AllIn<T>(f: T -> bool, m: map<Str, T>) {
    forall k | k in m :: f(m[k])
  }

  /** Every string, list and registry is within the bounds the reader enforces. */
  ghost predicate Readable(ps: Persisted) {
    && |ps.devices| <= 100000 && |ps.regions| <= 100000 && |ps.pools| <= 100000
    && AllIn(DeviceFits, ps.devices) && AllIn(RegionFits, ps.regions) && AllIn(PoolFits, ps.pools)
  }

  predicate Small(s: Str) {
    |s| < WORDS
  }

  predicate CapabilitySized(c: Capability) {
    Small(c.constraints)
  }

  predicate CapabilitiesSized(cs: seq<Capability>) {
    |cs| < WORDS && All(CapabilitySized, cs) && ByClass(cs)
  }

  predicate DeviceSized(d: Device) {
    && Small(d.id) && Small(d.bootId) && Small(d.rawIdentity) && Small(d.vendorDeviceId) && Small(d.deviceClass)
    && Small(d.deviceType) && Small(d.host) && Small(d.firmwareMetadata) && Small(d.lifecycleNote)
    && CapabilitiesSized(d.capabilities) && Small(d.economics.notes)
  }

  predicate RegionSized(r: Region) {
    Small(r.id) && Small(r.pool) && Sized(r.members) && Small(r.interleaveSet)
  }

  predicate MemberSized(m: PoolMember) {
    Small(m.device) && Small(m.failureDomain)
  }

  predicate MembersSized(ms: seq<PoolMember>) {
    |ms| < WORDS && All(MemberSized, ms)
  }

  predicate PoolSized(p: Pool) {
    && Small(p.id) && MembersSized(p.members) && Small(p.admissionPolicy) && Sized(p.failureDomains)
    && Small(p.lifecycleNote)
  }

  /** Records are filed by id, capabilities by class, and no length overflows its 32-bit size field. */
  ghost predicate Expressible(ps: Persisted) {
    && FiledById(ps.devices, ps.regions, ps.pools)
    && AllIn(DeviceSized, ps.devices) && AllIn(RegionSized, ps.regions) && AllIn(PoolSized, ps.pools)
  }

  // ---- records read back ----

  lemma ReadWrittenCapability(len: nat, c: Capability, t: seq<byte>)
    requires CapabilitySized(c)
    ensures ReadCapability(len, WCapability(c, t)) == if CapabilityFits(c) then Ok((c, t)) else Refused
  {
    ReadWrittenStr(len, c.constraints, t);
    var t1 := WStr(c.constraints, t);
    ReadWrittenFlag(len, c.evidenceCurrent, t1);
    var t2 := WFlag(c.evidenceCurrent, t1);
    ReadWrittenU64(len, c.evidenceGeneration, t2);
    var t3 := WU64(c.evidenceGeneration, t2);
    ReadWrittenU32(len, c.provenance, t3);
    var t4 := WU32(c.provenance, t3);
    ReadWrittenU64(len, c.version, t4);
    var t5 := WU64(c.version, t4);
    ReadWrittenU32(len, c.support, t5);
    var t6 := WU32(c.support, t5);
    ReadWrittenU32(len, c.klass, t6);
  }

  lemma CapabilityUndone(len: nat, c: Capability)
    requires CapabilitySized(c)
    ensures Undoes(ReadCapability, WCapability, CapabilityFits, Same, len, c)
  {
    forall t ensures ReadCapability(len, WCapability(c, t)) == if CapabilityFits(c) then Ok((c, t)) else Refused {
      ReadWrittenCapability(len, c, t);
    }
  }

  lemma ReadWrittenCapabilityList(len: nat, cs: seq<Capability>, t: seq<byte>)
    requires CapabilitiesSized(cs)
    ensures ReadCapabilityList(len, WCapabilities(cs, t)) == if CapabilitiesFit(cs) then Ok((cs, t)) else Refused
  {
    forall i | 0 <= i < |cs| ensures Undoes(ReadCapability, WCapability, CapabilityFits, Same, len, cs[i]) {
      CapabilityUndone(len, cs[i]);
    }
    ReadWrittenCount(len, |cs|, WList(WCapability, cs, t), MAX_CAPABILITIES);
    ReadWrittenList(ReadCapability, WCapability, CapabilityFits, Same, len, cs, t, []);
    MappedSame(cs);
    assert [] + Mapped(Same<Capability>, cs) == cs;
  }

  lemma ReadWrittenCapabilities(len: nat, cs: seq<Capability>, t: seq<byte>)
    requires CapabilitiesSized(cs)
    ensures ReadCapabilities(len, WCapabilities(cs, t)) == if CapabilitiesFit(cs) then Ok((cs, t)) else Refused
  {
    ReadWrittenCapabilityList(len, cs, t);
    CapabilitySetOfMap(cs);
  }

  lemma ReadWrittenNames(len: nat, d: Device, t: seq<byte>)
    requires DeviceSized(d)
    ensures ReadNames(len, WNames(d, t)) ==
      if IdentityFits(d)
      then Ok((Named(d.id, d.generation, d.bootId, d.rawIdentity, d.vendorDeviceId, d.deviceClass, d.deviceType,
                     d.host), t))
      else Refused
  {
    ReadWrittenStr(len, d.host, t);
    var t1 := WStr(d.host, t);
    ReadWrittenStr(len, d.deviceType, t1);
    var t2 := WStr(d.deviceType, t1);
    ReadWrittenStr(len, d.deviceClass, t2);
    var t3 := WStr(d.deviceClass, t2);
    ReadWrittenStr(len, d.vendorDeviceId, t3);
    var t4 := WStr(d.vendorDeviceId, t3);
    ReadWrittenStr(len, d.rawIdentity, t4);
    var t5 := WStr(d.rawIdentity, t4);
    ReadWrittenStr(len, d.bootId, t5);
    var t6 := WStr(d.bootId, t5);
    ReadWrittenU64(len, d.generation, t6);
    var t7 := WU64(d.generation, t6);
    ReadWrittenStr(len, d.id, t7);
  }

  lemma ReadWrittenLinks(len: nat, t: seq<byte>)
    ensures ReadLinks(len, WLinks(t)) == Ok((([], []), t))
  {
    ReadWrittenNoStrs(len, t, MAX_LABELS);
    ReadWrittenNoStrs(len, WStrs([], t), MAX_LABELS);
  }

  lemma ReadWrittenIdentity(len: nat, d: Device, t: seq<byte>)
    requires DeviceSized(d)
    ensures ReadIdentity(len, WIdentity(d, t)) ==
      if IdentityFits(d)
      then Ok((Named(d.id, d.generation, d.bootId, d.rawIdentity, d.vendorDeviceId, d.deviceClass, d.deviceType,
                     d.host), t))
      else Refused
  {
    ReadWrittenNames(len, d, WLinks(t));
    ReadWrittenLinks(len, t);
  }

  lemma ReadWrittenTraits(len: nat, d: Device, t: seq<byte>, into: Device)
    requires DeviceSized(d)
    ensures ReadTraits(len, WTraits(d, t), into) ==
      if TraitsFit(d) then
        Ok((into.(totalPhysicalBytes := d.totalPhysicalBytes, onlineBytes := d.onlineBytes,
                  volatility := d.volatility, sharing := d.sharing, multiHostCapable := d.multiHostCapable,
                  interleaveCapable := d.interleaveCapable, acceleratorAccess := d.acceleratorAccess,
                  provenance := d.provenance, evidenceGeneration := d.evidenceGeneration,
                  firmwareMetadata := d.firmwareMetadata, lifecycleNote := d.lifecycleNote), t))
      else Refused
  {
    ReadWrittenStr(len, d.lifecycleNote, t);
    var t1 := WStr(d.lifecycleNote, t);
    ReadWrittenStr(len, d.firmwareMetadata, t1);
    var t2 := WStr(d.firmwareMetadata, t1);
    ReadWrittenU64(len, d.evidenceGeneration, t2);
    var t3 := WU64(d.evidenceGeneration, t2);
    ReadWrittenU32(len, d.provenance, t3);
    var t4 := WU32(d.provenance, t3);
    ReadWrittenU32(len, d.acceleratorAccess, t4);
    var t5 := WU32(d.acceleratorAccess, t4);
    ReadWrittenFlag(len, d.interleaveCapable, t5);
    var t6 := WFlag(d.interleaveCapable, t5);
    ReadWrittenFlag(len, d.multiHostCapable, t6);
    var t7 := WFlag(d.multiHostCapable, t6);
    ReadWrittenU32(len, d.sharing, t7);
    var t8 := WU32(d.sharing, t7);
    ReadWrittenU32(len, d.volatility, t8);
    var t9 := WU32(d.volatility, t8);
    ReadWrittenU64(len, d.onlineBytes, t9);
    var t10 := WU64(d.onlineBytes, t9);
    ReadWrittenU64(len, d.totalPhysicalBytes, t10);
  }

  lemma ReadWrittenEconomics(len: nat, e: Economics, t: seq<byte>)
    requires Small(e.notes)
    ensures ReadEconomics(len, WEconomics(e, t)) == if ShortStr(e.notes) then Ok((e, t)) else Refused
  {
    ReadWrittenStr(len, e.notes, t);
    var t1 := WStr(e.notes, t);
    ReadWrittenFlag(len, e.failsafeValid, t1);
    var t2 := WFlag(e.failsafeValid, t1);
    ReadWrittenU64(len, e.migrationCost, t2);
    var t3 := WU64(e.migrationCost, t2);
    ReadWrittenU32(len, e.hopCount, t3);
    var t4 := WU32(e.hopCount, t3);
    ReadWrittenU64(len, e.bandwidth, t4);
    var t5 := WU64(e.bandwidth, t4);
    ReadWrittenU64(len, e.latency, t5);
    var t6 := WU64(e.latency, t5);
    ReadWrittenU32(len, e.provenance, t6);
    var t7 := WU32(e.provenance, t6);
    ReadWrittenU32(len, e.evidenceClass, t7);
    var t8 := WU32(e.evidenceClass, t7);
    ReadWrittenU32(len, e.tier, t8);
    var t9 := WU32(e.tier, t8);
    ReadWrittenU32(len, e.locality, t9);
  }

  lemma ReadWrittenDevice(len: nat, d: Device, t: seq<byte>)
    requires DeviceSized(d)
    ensures ReadDevice(len, WDevice(d, t)) == if DeviceFits(d) then Ok((DurableDevice(d), t)) else Refused
  {
    var t3 := WEconomics(d.economics, t);
    var t2 := WCapabilities(d.capabilities, t3);
    var t1 := WTraits(d, t2);
    ReadWrittenIdentity(len, d, t1);
    if IdentityFits(d) {
      ReadWrittenTraits(len, d, t2, ReadIdentity(len, WIdentity(d, t1)).value.0);
      ReadWrittenCapabilities(len, d.capabilities, t3);
      ReadWrittenEconomics(len, d.economics, t);
    }
  }

  lemma ReadWrittenRegion(len: nat, r: Region, t: seq<byte>)
    requires RegionSized(r)
    ensures ReadRegion(len, WRegion(r, t)) == if RegionFits(r) then Ok((DurableRegion(r), t)) else Refused
  {
    ReadWrittenFlag(len, r.deviceLocal, t);
    var t1 := WFlag(r.deviceLocal, t);
    ReadWrittenU64(len, r.evidenceGeneration, t1);
    var t2 := WU64(r.evidenceGeneration, t1);
    ReadWrittenU32(len, r.provenance, t2);
    var t3 := WU32(r.provenance, t2);
    ReadWrittenFlag(len, r.interleaved, t3);
    var t4 := WFlag(r.interleaved, t3);
    ReadWrittenU64(len, r.capacity, t4);
    var t5 := WU64(r.capacity, t4);
    ReadWrittenStr(len, r.interleaveSet, t5);
    var t6 := WStr(r.interleaveSet, t5);
    ReadWrittenStrs(len, r.members, t6, MAX_RECORDS);
    var t7 := WStrs(r.members, t6);
    ReadWrittenStr(len, r.pool, t7);
    var t8 := WStr(r.pool, t7);
    ReadWrittenU64(len, r.generation, t8);
    var t9 := WU64(r.generation, t8);
    ReadWrittenStr(len, r.id, t9);
  }

  lemma ReadWrittenMember(len: nat, m: PoolMember, t: seq<byte>)
    requires MemberSized(m)
    ensures ReadMember(len, WMember(m, t)) == if MemberFits(m) then Ok((m, t)) else Refused
  {
    ReadWrittenU32(len, m.locality, t);
    var t1 := WU32(m.locality, t);
    ReadWrittenStr(len, m.failureDomain, t1);
    var t2 := WStr(m.failureDomain, t1);
    ReadWrittenFlag(len, m.healthOk, t2);
    var t3 := WFlag(m.healthOk, t2);
    ReadWrittenFlag(len, m.online, t3);
    var t4 := WFlag(m.online, t3);
    ReadWrittenU64(len, m.nominalBytes, t4);
    var t5 := WU64(m.nominalBytes, t4);
    ReadWrittenU64(len, m.deviceGeneration, t5);
    var t6 := WU64(m.deviceGeneration, t5);
    ReadWrittenStr(len, m.device, t6);
  }

  lemma MemberUndone(len: nat, m: PoolMember)
    requires MemberSized(m)
    ensures Undoes(ReadMember, WMember, MemberFits, Same, len, m)
  {
    forall t ensures ReadMember(len, WMember(m, t)) == if MemberFits(m) then Ok((m, t)) else Refused {
      ReadWrittenMember(len, m, t);
    }
  }

  lemma ReadWrittenMembers(len: nat, ms: seq<PoolMember>, t: seq<byte>)
    requires MembersSized(ms)
    ensures ReadMembers(len, WMembers(ms, t)) == if MembersFit(ms) then Ok((ms, t)) else Refused
  {
    forall i | 0 <= i < |ms| ensures Undoes(ReadMember, WMember, MemberFits, Same, len, ms[i]) {
      MemberUndone(len, ms[i]);
    }
    ReadWrittenCount(len, |ms|, WList(WMember, ms, t), MAX_RECORDS);
    ReadWrittenList(ReadMember, WMember, MemberFits, Same, len, ms, t, []);
    MappedSame(ms);
    assert [] + Mapped(Same<PoolMember>, ms) == ms;
  }

  lemma ReadWrittenCounters(len: nat, p: Pool, t: seq<byte>, into: Pool)
    ensures ReadCounters(len, WCounters(p, t), into) ==
      Ok((into.(totalGoverned := p.totalGoverned, committed := p.committed, reserved := p.reserved,
                draining := p.draining, unavailable := p.unavailable), t))
  {
    ReadWrittenU64(len, p.unavailable, t);
    var t1 := WU64(p.unavailable, t);
    ReadWrittenU64(len, p.draining, t1);
    var t2 := WU64(p.draining, t1);
    ReadWrittenU64(len, p.reserved, t2);
    var t3 := WU64(p.reserved, t2);
    ReadWrittenU64(len, p.committed, t3);
    var t4 := WU64(p.committed, t3);
    ReadWrittenU64(len, p.totalGoverned, t4);
  }

  lemma ReadWrittenPolicy(len: nat, p: Pool, t: seq<byte>, into: Pool)
    requires PoolSized(p)
    ensures ReadPolicy(len, WPolicy(p, t), into) ==
      if ShortStr(p.admissionPolicy) && StrsFit(p.failureDomains, MAX_LABELS) && ShortStr(p.lifecycleNote) then
        Ok((into.(admissionPolicy := p.admissionPolicy, failureDomains := p.failureDomains,
                  localityDistribution := p.localityDistribution, healthSummary := p.healthSummary,
                  provenance := p.provenance, evidenceGeneration := p.evidenceGeneration,
                  evidenceCurrent := p.evidenceCurrent, lifecycleNote := p.lifecycleNote), t))
      else Refused
  {
    ReadWrittenStr(len, p.lifecycleNote, t);
    var t1 := WStr(p.lifecycleNote, t);
    ReadWrittenFlag(len, p.evidenceCurrent, t1);
    var t2 := WFlag(p.evidenceCurrent, t1);
    ReadWrittenU64(len, p.evidenceGeneration, t2);
    var t3 := WU64(p.evidenceGeneration, t2);
    ReadWrittenU32(len, p.provenance, t3);
    var t4 := WU32(p.provenance, t3);
    ReadWrittenU32(len, p.healthSummary, t4);
    var t5 := WU32(p.healthSummary, t4);
    ReadWrittenU32(len, p.localityDistribution, t5);
    var t6 := WU32(p.localityDistribution, t5);
    ReadWrittenStrs(len, p.failureDomains, t6, MAX_LABELS);
    var t7 := WStrs(p.failureDomains, t6);
    ReadWrittenStr(len, p.admissionPolicy, t7);
  }

  lemma ReadWrittenPool(len: nat, p: Pool, t: seq<byte>)
    requires PoolSized(p)
    ensures ReadPool(len, WPool(p, t)) == if PoolFits(p) then Ok((DurablePool(p), t)) else Refused
  {
    var into := BLANK_POOL.(id := p.id, generation := p.generation, members := p.members);
    ReadWrittenStr(len, p.id, WU64(p.generation, WMembers(p.members, WCounters(p, WPolicy(p, t)))));
    ReadWrittenU64(len, p.generation, WMembers(p.members, WCounters(p, WPolicy(p, t))));
    ReadWrittenMembers(len, p.members, WCounters(p, WPolicy(p, t)));
    ReadWrittenCounters(len, p, WPolicy(p, t), into);
    ReadWrittenPolicy(len, p, t, ReadCounters(len, WCounters(p, WPolicy(p, t)), into).value.0);
  }
}
