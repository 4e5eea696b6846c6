/** The code that writes and reads the state file, field by field. */
module StateFileIO {
  import opened Base
  import opened Records
  import opened Packing
  import opened Crc
  import opened Streams
  import opened Persistence
  import opened StateFile

  // ---- writing ----

  method PutCapability(out: Sink, c: Capability)
    modifies out
    ensures forall t :: out.bytes + t == old(out.bytes) + WCapability(c, t)
  {
    out.PutU32(c.klass);
    out.PutU32(c.support);
    out.PutU64(c.version);
    out.PutU32(c.provenance);
    out.PutU64(c.evidenceGeneration);
    out.PutFlag(c.evidenceCurrent);
    out.PutStr(c.constraints);
  }

  method PutCapabilities(out: Sink, cs: seq<Capability>)
    modifies out
    ensures forall t :: out.bytes + t == old(out.bytes) + WCapabilities(cs, t)
  {
    out.PutSize(|cs|);
    ghost var start := out.bytes;
    NoItemYet(WCapability, cs, start);
    for i := 0 to |cs|
      invariant ItemsLeft(WCapability, cs, start, i, out.bytes)
    {
      ghost var now := out.bytes;
      PutCapability(out, cs[i]);
      ItemWritten(WCapability, cs, start, i, now, out.bytes);
    }
    AllItemsWritten(WCapability, cs, start, out.bytes);
  }

  method PutIdentity(out: Sink, d: Device)
    modifies out
    ensures forall t :: out.bytes + t == old(out.bytes) + WIdentity(d, t)
  {
    PutNames(out, d);
    out.PutStrs([]);
    out.PutStrs([]);
  }

  method PutNames(out: Sink, d: Device)
    modifies out
    ensures forall t :: out.bytes + t == old(out.bytes) + WNames(d, t)
  {
    out.PutStr(d.id);
    out.PutU64(d.generation);
    out.PutStr(d.bootId);
    out.PutStr(d.rawIdentity);
    out.PutStr(d.vendorDeviceId);
    out.PutStr(d.deviceClass);
    out.PutStr(d.deviceType);
    out.PutStr(d.host);
  }

  method PutTraits(out: Sink, d: Device)
    modifies out
    ensures forall t :: out.bytes + t == old(out.bytes) + WTraits(d, t)
  {
    out.PutU64(d.totalPhysicalBytes);
    out.PutU64(d.onlineBytes);
    out.PutU32(d.volatility);
    out.PutU32(d.sharing);
    out.PutFlag(d.multiHostCapable);
    out.PutFlag(d.interleaveCapable);
    out.PutU32(d.acceleratorAccess);
    out.PutU32(d.provenance);
    out.PutU64(d.evidenceGeneration);
    out.PutStr(d.firmwareMetadata);
    out.PutStr(d.lifecycleNote);
  }

  method PutEconomics(out: Sink, e: Economics)
    modifies out
    ensures forall t :: out.bytes + t == old(out.bytes) + WEconomics(e, t)
  {
    out.PutU32(e.locality);
    out.PutU32(e.tier);
    out.PutU32(e.evidenceClass);
    out.PutU32(e.provenance);
    out.PutU64(e.latency);
    out.PutU64(e.bandwidth);
    out.PutU32(e.hopCount);
    out.PutU64(e.migrationCost);
    out.PutFlag(e.failsafeValid);
    out.PutStr(e.notes);
  }

  method PutDevice(out: Sink, d: Device)
    modifies out
    ensures forall t :: out.bytes + t == old(out.bytes) + WDevice(d, t)
  {
    PutIdentity(out, d);
    PutTraits(out, d);
    PutCapabilities(out, d.capabilities);
    PutEconomics(out, d.economics);
  }

  method PutRegion(out: Sink, r: Region)
    modifies out
    ensures forall t :: out.bytes + t == old(out.bytes) + WRegion(r, t)
  {
    out.PutStr(r.id);
    out.PutU64(r.generation);
    out.PutStr(r.pool);
    out.PutStrs(r.members);
    out.PutStr(r.interleaveSet);
    out.PutU64(r.capacity);
    out.PutFlag(r.interleaved);
    out.PutU32(r.provenance);
    out.PutU64(r.evidenceGeneration);
    out.PutFlag(r.deviceLocal);
  }

  method PutMember(out: Sink, m: PoolMember)
    modifies out
    ensures forall t :: out.bytes + t == old(out.bytes) + WMember(m, t)
  {
    out.PutStr(m.device);
    out.PutU64(m.deviceGeneration);
    out.PutU64(m.nominalBytes);
    out.PutFlag(m.online);
    out.PutFlag(m.healthOk);
    out.PutStr(m.failureDomain);
    out.PutU32(m.locality);
  }

  method PutMembers(out: Sink, ms: seq<PoolMember>)
    modifies out
    ensures forall t :: out.bytes + t == old(out.bytes) + WMembers(ms, t)
  {
    out.PutSize(|ms|);
    ghost var start := out.bytes;
    NoItemYet(WMember, ms, start);
    for i := 0 to |ms|
      invariant ItemsLeft(WMember, ms, start, i, out.bytes)
    {
      ghost var now := out.bytes;
      PutMember(out, ms[i]);
      ItemWritten(WMember, ms, start, i, now, out.bytes);
    }
    AllItemsWritten(WMember, ms, start, out.bytes);
  }

  method PutCounters(out: Sink, p: Pool)
    modifies out
    ensures forall t :: out.bytes + t == old(out.bytes) + WCounters(p, t)
  {
    out.PutU64(p.totalGoverned);
    out.PutU64(p.committed);
    out.PutU64(p.reserved);
    out.PutU64(p.draining);
    out.PutU64(p.unavailable);
  }

  method PutPolicy(out: Sink, p: Pool)
    modifies out
    ensures forall t :: out.bytes + t == old(out.bytes) + WPolicy(p, t)
  {
    out.PutStr(p.admissionPolicy);
    out.PutStrs(p.failureDomains);
    out.PutU32(p.localityDistribution);
    out.PutU32(p.healthSummary);
    out.PutU32(p.provenance);
    out.PutU64(p.evidenceGeneration);
    out.PutFlag(p.evidenceCurrent);
    out.PutStr(p.lifecycleNote);
  }

  method PutPool(out: Sink, p: Pool)
    modifies out
    ensures forall t :: out.bytes + t == old(out.bytes) + WPool(p, t)
  {
    out.PutStr(p.id);
    out.PutU64(p.generation);
    PutMembers(out, p.members);
    PutCounters(out, p);
    PutPolicy(out, p);
  }

  method PutDevices(out: Sink, m: map<Str, Device>)
    modifies out
    ensures forall t :: out.bytes + t == old(out.bytes) + WRegistry(WDevice, m, t)
  {
    out.PutSize(|m|);
    ghost var start := out.bytes;
    var vs := Values(m);
    NoItemYet(WDevice, vs, start);
    for i := 0 to |vs|
      invariant ItemsLeft(WDevice, vs, start, i, out.bytes)
    {
      ghost var now := out.bytes;
      PutDevice(out, vs[i]);
      ItemWritten(WDevice, vs, start, i, now, out.bytes);
    }
    AllItemsWritten(WDevice, vs, start, out.bytes);
  }

  method PutRegions(out: Sink, m: map<Str, Region>)
    modifies out
    ensures forall t :: out.bytes + t == old(out.bytes) + WRegistry(WRegion, m, t)
  {
    out.PutSize(|m|);
    ghost var start := out.bytes;
    var vs := Values(m);
    NoItemYet(WRegion, vs, start);
    for i := 0 to |vs|
      invariant ItemsLeft(WRegion, vs, start, i, out.bytes)
    {
      ghost var now := out.bytes;
      PutRegion(out, vs[i]);
      ItemWritten(WRegion, vs, start, i, now, out.bytes);
    }
    AllItemsWritten(WRegion, vs, start, out.bytes);
  }

  method PutPools(out: Sink, m: map<Str, Pool>)
    modifies out
    ensures forall t :: out.bytes + t == old(out.bytes) + WRegistry(WPool, m, t)
  {
    out.PutSize(|m|);
    ghost var start := out.bytes;
    var vs := Values(m);
    NoItemYet(WPool, vs, start);
    for i := 0 to |vs|
      invariant ItemsLeft(WPool, vs, start, i, out.bytes)
    {
      ghost var now := out.bytes;
      PutPool(out, vs[i]);
      ItemWritten(WPool, vs, start, i, now, out.bytes);
    }
    AllItemsWritten(WPool, vs, start, out.bytes);
  }

  method PutBody(ps: Persisted) returns (body: seq<byte>)
    ensures body == Body(ps)
  {
    var out := new Sink();
    out.PutU64(ps.policyGeneration);
    PutDevices(out, ps.devices);
    PutRegions(out, ps.regions);
    PutPools(out, ps.pools);
    body := out.bytes;
    assert body + [] == body && [] + Body(ps) == Body(ps);
  }

  method PutFooted(body: seq<byte>) returns (out: seq<byte>)
    ensures out == Footed(body)
  {
    var crc := ComputeCrc32(body);
    var footer := SplitU32(crc);
    out := body + footer;
  }

  method SerializeState(ps: Persisted) returns (o: Outcome<seq<byte>>)
    ensures o == Serialize(ps)
  {
    if |ps.devices| > MAX_RECORDS || |ps.regions| > MAX_RECORDS || |ps.pools| > MAX_RECORDS { return Refused; }
    var body := PutBody(ps);
    var payload := PutFooted(body);
    o := Ok(payload);
  }

  // ---- reading ----

  method GetCapability(r: Reader) returns (o: Outcome<Capability>)
    requires r.Valid()
    modifies r
    ensures r.Valid() && Mirrors(ReadCapability(|r.data|, old(r.Rest())), o, r.Rest())
  {
    var klass :- r.U32();
    var support :- r.U32();
    var version :- r.U64();
    var provenance :- r.U32();
    var evidence :- r.U64();
    var current :- r.Flag();
    var constraints :- r.String();
    o := Ok(Capability(klass, support, version, provenance, evidence, current, constraints));
  }

  method NextCapability(r: Reader) returns (o: Outcome<Capability>)
    requires r.Valid()
    modifies r
    ensures r.Valid() && Follows(ReadCapability, |r.data|, old(r.Rest()), o, r.Rest())
  {
    o := GetCapability(r);
    MirrorsFollow(ReadCapability, |r.data|, old(r.Rest()), o, r.Rest());
  }

  lemma SetExtends(cs: seq<Capability>, c: Capability)
    ensures CapabilitySet(cs + [c]) == SetCapability(CapabilitySet(cs), c)
  {
    assert (cs + [c])[..|cs|] == cs;
  }

  /** found is the set that the capabilities read make; stated over every equal function so that none unfolds. */
  ghost predicate SetOf(read: seq<Capability>, found: seq<Capability>) {
    forall f: seq<Capability> -> seq<Capability> | f == CapabilitySet :: f(read) == found
  }

  lemma SetOfNone()
    ensures SetOf([], [])
  {}

  lemma SetOfMore(read: seq<Capability>, found: seq<Capability>, c: Capability)
    requires SetOf(read, found)
    ensures SetOf(read + [c], SetCapability(found, c))
  {
    var f: seq<Capability> -> seq<Capability> := CapabilitySet;
    assert f(read) == found;
    SetExtends(read, c);
  }

  lemma SetOfAll(read: seq<Capability>, found: seq<Capability>)
    requires SetOf(read, found)
    ensures found == CapabilitySet(read)
  {
    var f: seq<Capability> -> seq<Capability> := CapabilitySet;
    assert f(read) == found;
  }

  /** Capabilities read so far, and the set they make. */
  ghost predicate Gathering(
    r: (nat, seq<byte>) -> Parsed<Capability>, len: nat, n: nat, start: seq<byte>, k: nat, rest: seq<byte>,
    read: seq<Capability>, found: seq<Capability>)
  {
    ItemsPending(r, len, n, start, k, rest, read) && SetOf(read, found)
  }

  lemma NoneGathered(r: (nat, seq<byte>) -> Parsed<Capability>, len: nat, n: nat, start: seq<byte>)
    ensures Gathering(r, len, n, start, n, start, [], [])
  {
    NoItemRead(r, len, n, start);
    SetOfNone();
  }

  lemma OneGathered(
    r: (nat, seq<byte>) -> Parsed<Capability>, len: nat, n: nat, start: seq<byte>, k: nat, j: nat, rest: seq<byte>,
    read: seq<Capability>, found: seq<Capability>, item: Outcome<Capability>, after: seq<byte>,
    all: seq<Capability>, more: seq<Capability>)
    requires Gathering(r, len, n, start, k, rest, read, found) && k == j + 1 && Follows(r, len, rest, item, after)
    requires item.Ok? && all == read + [item.value] && SetOf(all, more)
    ensures Gathering(r, len, n, start, j, after, all, more)
  {
    ItemRead(r, len, n, start, k, j, rest, read, item, after, all);
  }

  lemma GatheringFails(
    r: (nat, seq<byte>) -> Parsed<Capability>, len: nat, n: nat, start: seq<byte>, k: nat, rest: seq<byte>,
    read: seq<Capability>, found: seq<Capability>, item: Outcome<Capability>, after: seq<byte>)
    requires Gathering(r, len, n, start, k, rest, read, found) && k > 0 && Follows(r, len, rest, item, after)
    requires !item.Ok?
    ensures ListFollows(r, len, n, start, item.PropagateFailure(), after)
  {
    ItemFails(r, len, n, start, k, rest, read, item, after);
  }

  lemma AllGathered(
    r: (nat, seq<byte>) -> Parsed<Capability>, len: nat, n: nat, start: seq<byte>, rest: seq<byte>,
    read: seq<Capability>, found: seq<Capability>)
    requires Gathering(r, len, n, start, 0, rest, read, found)
    ensures ListFollows(r, len, n, start, Ok(read), rest) && SetOf(read, found)
  {
    AllItemsRead(r, len, n, start, rest, read);
  }

  lemma GatheredSet(
    r: (nat, seq<byte>) -> Parsed<Capability>, len: nat, n: nat, start: seq<byte>, k: nat, rest: seq<byte>,
    read: seq<Capability>, found: seq<Capability>)
    requires Gathering(r, len, n, start, k, rest, read, found)
    ensures SetOf(read, found)
  {}

  method AddCapability(ghost read: seq<Capability>, found: seq<Capability>, c: Capability)
    returns (more: seq<Capability>)
    requires SetOf(read, found)
    ensures SetOf(read + [c], more)
  {
    SetOfMore(read, found, c);
    more := SetCapability(found, c);
  }

  method GatherCapabilities(r: Reader, n: nat) returns (o: Outcome<seq<Capability>>, ghost read: seq<Capability>)
    requires r.Valid()
    modifies r
    ensures r.Valid()
    ensures o.Ok? ==> ListFollows(ReadCapability, |r.data|, n, old(r.Rest()), Ok(read), r.Rest())
    ensures o.Ok? ==> SetOf(read, o.value)
    ensures !o.Ok? ==> ListFollows(ReadCapability, |r.data|, n, old(r.Rest()), o, r.Rest())
  {
    var found: seq<Capability> := [];
    read := [];
    NoneGathered(ReadCapability, |r.data|, n, r.Rest());
    ghost var k, rest := n, r.Rest();
    for i := 0 to n
      invariant r.Valid() && k == n - i && rest == r.Rest()
      invariant Gathering(ReadCapability, |r.data|, n, old(r.Rest()), k, rest, read, found)
    {
      var item := NextCapability(r);
      ghost var after := r.Rest();
      if !item.Ok? {
        GatheringFails(ReadCapability, |r.data|, n, old(r.Rest()), k, rest, read, found, item, after);
        return item.PropagateFailure(), read;
      }
      GatheredSet(ReadCapability, |r.data|, n, old(r.Rest()), k, rest, read, found);
      ghost var all, j: nat := read + [item.value], k - 1;
      var more := AddCapability(read, found, item.value);
      OneGathered(ReadCapability, |r.data|, n, old(r.Rest()), k, j, rest, read, found, item, after, all, more);
      read, k, rest := all, j, after;
      found := more;
    }
    AllGathered(ReadCapability, |r.data|, n, old(r.Rest()), rest, read, found);
    o := Ok(found);
  }

  method GetCapabilities(r: Reader) returns (o: Outcome<seq<Capability>>)
    requires r.Valid()
    modifies r
    ensures r.Valid() && Mirrors(ReadCapabilities(|r.data|, old(r.Rest())), o, r.Rest())
  {
    var n :- r.Count(MAX_CAPABILITIES);
    ghost var read;
    o, read := GatherCapabilities(r, n);
    if o.Ok? { SetOfAll(read, o.value); }
  }

  method GetIdentity(r: Reader) returns (o: Outcome<Device>)
    requires r.Valid()
    modifies r
    ensures r.Valid() && Mirrors(ReadIdentity(|r.data|, old(r.Rest())), o, r.Rest())
  {
    var d :- GetNames(r);
    var _ :- r.Strings(MAX_LABELS);
    var _ :- r.Strings(MAX_LABELS);
    o := Ok(d);
  }

  method GetNames(r: Reader) returns (o: Outcome<Device>)
    requires r.Valid()
    modifies r
    ensures r.Valid() && Mirrors(ReadNames(|r.data|, old(r.Rest())), o, r.Rest())
  {
    var id :- r.String();
    var generation :- r.U64();
    var boot :- r.String();
    var raw :- r.String();
    var vendor :- r.String();
    var class_ :- r.String();
    var kind :- r.String();
    var host :- r.String();
    o := Ok(Named(id, generation, boot, raw, vendor, class_, kind, host));
  }

  method GetTraits(r: Reader, d: Device) returns (o: Outcome<Device>)
    requires r.Valid()
    modifies r
    ensures r.Valid() && Mirrors(ReadTraits(|r.data|, old(r.Rest()), d), o, r.Rest())
  {
    var total :- r.U64();
    var online :- r.U64();
    var volatility :- r.U32();
    var sharing :- r.U32();
    var multi :- r.Flag();
    var interleave :- r.Flag();
    var accelerator :- r.U32();
    var provenance :- r.U32();
    var evidence :- r.U64();
    var firmware :- r.String();
    var note :- r.String();
    o := Ok(d.(totalPhysicalBytes := total, onlineBytes := online, volatility := volatility, sharing := sharing,
               multiHostCapable := multi, interleaveCapable := interleave, acceleratorAccess := accelerator,
               provenance := provenance, evidenceGeneration := evidence, firmwareMetadata := firmware,
               lifecycleNote := note));
  }

  method GetEconomics(r: Reader) returns (o: Outcome<Economics>)
    requires r.Valid()
    modifies r
    ensures r.Valid() && Mirrors(ReadEconomics(|r.data|, old(r.Rest())), o, r.Rest())
  {
    var locality :- r.U32();
    var tier :- r.U32();
    var class_ :- r.U32();
    var provenance :- r.U32();
    var latency :- r.U64();
    var bandwidth :- r.U64();
    var hops :- r.U32();
    var migration :- r.U64();
    var failsafe :- r.Flag();
    var notes :- r.String();
    o := Ok(Economics(locality, tier, class_, provenance, latency, bandwidth, hops, migration, failsafe, notes));
  }

  method GetDevice(r: Reader) returns (o: Outcome<Device>)
    requires r.Valid()
    modifies r
    ensures r.Valid() && Mirrors(ReadDevice(|r.data|, old(r.Rest())), o, r.Rest())
  {
    var d :- GetIdentity(r);
    d :- GetTraits(r, d);
    var cs :- GetCapabilities(r);
    var e :- GetEconomics(r);
    o := Ok(d.(capabilities := cs, economics := e));
  }

  method NextDevice(r: Reader) returns (o: Outcome<Device>)
    requires r.Valid()
    modifies r
    ensures r.Valid() && Follows(ReadDevice, |r.data|, old(r.Rest()), o, r.Rest())
  {
    o := GetDevice(r);
    MirrorsFollow(ReadDevice, |r.data|, old(r.Rest()), o, r.Rest());
  }

  method GetRegion(r: Reader) returns (o: Outcome<Region>)
    requires r.Valid()
    modifies r
    ensures r.Valid() && Mirrors(ReadRegion(|r.data|, old(r.Rest())), o, r.Rest())
  {
    var id :- r.String();
    var generation :- r.U64();
    var pool :- r.String();
    var members :- r.Strings(MAX_RECORDS);
    var interleaveSet :- r.String();
    var capacity :- r.U64();
    var interleaved :- r.Flag();
    var provenance :- r.U32();
    var evidence :- r.U64();
    var deviceLocal :- r.Flag();
    o := Ok(BLANK_REGION.(id := id, generation := generation, pool := pool, members := members,
                          interleaveSet := interleaveSet, capacity := capacity, interleaved := interleaved,
                          provenance := provenance, evidenceGeneration := evidence, deviceLocal := deviceLocal));
  }

  method NextRegion(r: Reader) returns (o: Outcome<Region>)
    requires r.Valid()
    modifies r
    ensures r.Valid() && Follows(ReadRegion, |r.data|, old(r.Rest()), o, r.Rest())
  {
    o := GetRegion(r);
    MirrorsFollow(ReadRegion, |r.data|, old(r.Rest()), o, r.Rest());
  }

  method GetMember(r: Reader) returns (o: Outcome<PoolMember>)
    requires r.Valid()
    modifies r
    ensures r.Valid() && Mirrors(ReadMember(|r.data|, old(r.Rest())), o, r.Rest())
  {
    var device :- r.String();
    var generation :- r.U64();
    var nominal :- r.U64();
    var online :- r.Flag();
    var healthOk :- r.Flag();
    var domain :- r.String();
    var locality :- r.U32();
    o := Ok(PoolMember(device, generation, nominal, online, healthOk, domain, locality));
  }

  method NextMember(r: Reader) returns (o: Outcome<PoolMember>)
    requires r.Valid()
    modifies r
    ensures r.Valid() && Follows(ReadMember, |r.data|, old(r.Rest()), o, r.Rest())
  {
    o := GetMember(r);
    MirrorsFollow(ReadMember, |r.data|, old(r.Rest()), o, r.Rest());
  }

  method CollectMembers(r: Reader, n: nat) returns (o: Outcome<seq<PoolMember>>)
    requires r.Valid()
    modifies r
    ensures r.Valid() && ListFollows(ReadMember, |r.data|, n, old(r.Rest()), o, r.Rest())
  {
    var ms: seq<PoolMember> := [];
    NoItemRead(ReadMember, |r.data|, n, r.Rest());
    ghost var k, rest := n, r.Rest();
    for i := 0 to n
      invariant r.Valid() && k == n - i && rest == r.Rest()
      invariant ItemsPending(ReadMember, |r.data|, n, old(r.Rest()), k, rest, ms)
    {
      var item := NextMember(r);
      ghost var after := r.Rest();
      if !item.Ok? {
        ItemFails(ReadMember, |r.data|, n, old(r.Rest()), k, rest, ms, item, after);
        return item.PropagateFailure();
      }
      ghost var j: nat := k - 1;
      var more := ms + [item.value];
      ItemRead(ReadMember, |r.data|, n, old(r.Rest()), k, j, rest, ms, item, after, more);
      k, rest := j, after;
      ms := more;
    }
    AllItemsRead(ReadMember, |r.data|, n, old(r.Rest()), r.Rest(), ms);
    o := Ok(ms);
  }

  method GetMembers(r: Reader) returns (o: Outcome<seq<PoolMember>>)
    requires r.Valid()
    modifies r
    ensures r.Valid() && Mirrors(ReadMembers(|r.data|, old(r.Rest())), o, r.Rest())
  {
    var n :- r.Count(MAX_RECORDS);
    o := CollectMembers(r, n);
  }

  method GetCounters(r: Reader, p: Pool) returns (o: Outcome<Pool>)
    requires r.Valid()
    modifies r
    ensures r.Valid() && Mirrors(ReadCounters(|r.data|, old(r.Rest()), p), o, r.Rest())
  {
    var total :- r.U64();
    var committed :- r.U64();
    var reserved :- r.U64();
    var draining :- r.U64();
    var unavailable :- r.U64();
    o := Ok(p.(totalGoverned := total, committed := committed, reserved := reserved, draining := draining,
               unavailable := unavailable));
  }

  method GetPolicy(r: Reader, p: Pool) returns (o: Outcome<Pool>)
    requires r.Valid()
    modifies r
    ensures r.Valid() && Mirrors(ReadPolicy(|r.data|, old(r.Rest()), p), o, r.Rest())
  {
    var admission :- r.String();
    var domains :- r.Strings(MAX_LABELS);
    var locality :- r.U32();
    var health :- r.U32();
    var provenance :- r.U32();
    var evidence :- r.U64();
    var current :- r.Flag();
    var note :- r.String();
    o := Ok(p.(admissionPolicy := admission, failureDomains := domains, localityDistribution := locality,
               healthSummary := health, provenance := provenance, evidenceGeneration := evidence,
               evidenceCurrent := current, lifecycleNote := note));
  }

  method GetPool(r: Reader) returns (o: Outcome<Pool>)
    requires r.Valid()
    modifies r
    ensures r.Valid() && Mirrors(ReadPool(|r.data|, old(r.Rest())), o, r.Rest())
  {
    var id :- r.String();
    var generation :- r.U64();
    var members :- GetMembers(r);
    var p :- GetCounters(r, BLANK_POOL.(id := id, generation := generation, members := members));
    o := GetPolicy(r, p);
  }

  method NextPool(r: Reader) returns (o: Outcome<Pool>)
    requires r.Valid()
    modifies r
    ensures r.Valid() && Follows(ReadPool, |r.data|, old(r.Rest()), o, r.Rest())
  {
    o := GetPool(r);
    MirrorsFollow(ReadPool, |r.data|, old(r.Rest()), o, r.Rest());
  }

  lemma FileExtends<T>(id: T -> Str, xs: seq<T>, x: T)
    ensures FileAll(id, xs + [x]) == FileAll(id, xs)[id(x) := x]
  {
    assert (xs + [x])[..|xs|] == xs;
  }

  /** One more record read from a registry of n, and filed. */
  ghost predicate Filing<T(!new)>(
    r: (nat, seq<byte>) -> Parsed<T>, id: T -> Str, len: nat, n: nat, start: seq<byte>, k: nat, rest: seq<byte>,
    read: seq<T>, filed: map<Str, T>)
  {
    ItemsPending(r, len, n, start, k, rest, read) && filed == FileAll(id, read)
  }

  /** What the registry's n records, read and filed, come to. */
  ghost predicate FilesAll<T(!new)>(
    r: (nat, seq<byte>) -> Parsed<T>, id: T -> Str, len: nat, n: nat, start: seq<byte>, o: Outcome<map<Str, T>>,
    rest: seq<byte>)
  {
    exists read: Outcome<seq<T>> ::
      && ListFollows(r, len, n, start, read, rest)
      && o == if read.Ok? then Ok(FileAll(id, read.value)) else read.PropagateFailure()
  }

  lemma NoneFiled<T(!new)>(r: (nat, seq<byte>) -> Parsed<T>, id: T -> Str, len: nat, n: nat, start: seq<byte>)
    ensures Filing(r, id, len, n, start, n, start, [], map[])
  {
    NoItemRead(r, len, n, start);
  }

  /** The step shared by the three registry loops. */
  lemma OneFiled<T(!new)>(
    r: (nat, seq<byte>) -> Parsed<T>, id: T -> Str, len: nat, n: nat, start: seq<byte>, k: nat, j: nat, rest: seq<byte>,
    read: seq<T>, filed: map<Str, T>, item: Outcome<T>, after: seq<byte>, all: seq<T>, more: map<Str, T>)
    requires Filing(r, id, len, n, start, k, rest, read, filed) && k == j + 1 && Follows(r, len, rest, item, after)
    requires item.Ok? && all == read + [item.value] && more == filed[id(item.value) := item.value]
    ensures Filing(r, id, len, n, start, j, after, all, more)
  {
    ItemRead(r, len, n, start, k, j, rest, read, item, after, all);
    FileExtends(id, read, item.value);
  }

  lemma FilingFails<T(!new)>(
    r: (nat, seq<byte>) -> Parsed<T>, id: T -> Str, len: nat, n: nat, start: seq<byte>, k: nat, rest: seq<byte>,
    read: seq<T>, filed: map<Str, T>, item: Outcome<T>, after: seq<byte>)
    requires Filing(r, id, len, n, start, k, rest, read, filed) && k > 0 && Follows(r, len, rest, item, after)
    requires !item.Ok?
    ensures FilesAll(r, id, len, n, start, item.PropagateFailure(), after)
  {
    ItemFails(r, len, n, start, k, rest, read, item, after);
  }

  lemma AllFiled<T(!new)>(
    r: (nat, seq<byte>) -> Parsed<T>, id: T -> Str, len: nat, n: nat, start: seq<byte>, rest: seq<byte>,
    read: seq<T>, filed: map<Str, T>)
    requires Filing(r, id, len, n, start, 0, rest, read, filed)
    ensures FilesAll(r, id, len, n, start, Ok(filed), rest)
  {
    AllItemsRead(r, len, n, start, rest, read);
  }

  lemma RegistryFiled<T(!new)>(
    r: (nat, seq<byte>) -> Parsed<T>, id: T -> Str, len: nat, b: seq<byte>, n: nat, start: seq<byte>,
    o: Outcome<map<Str, T>>, rest: seq<byte>)
    requires ReadCount(len, b, MAX_RECORDS) == Ok((n, start)) && FilesAll(r, id, len, n, start, o, rest)
    ensures RegistryFollows(r, id, len, b, o, rest)
  {
    var read: Outcome<seq<T>> :|
      && ListFollows(r, len, n, start, read, rest)
      && o == if read.Ok? then Ok(FileAll(id, read.value)) else read.PropagateFailure();
    assert Mirrors(ReadList(r, len, n, start, []), read, rest);
  }

  ghost predicate RegistryFollows<T(!new)>(
    r: (nat, seq<byte>) -> Parsed<T>, id: T -> Str, len: nat, before: seq<byte>, o: Outcome<map<Str, T>>,
    after: seq<byte>)
  {
    forall l: nat | l == len :: Mirrors(ReadRegistry(r, id, l, before), o, after)
  }

  lemma NoRegistry<T(!new)>(
    r: (nat, seq<byte>) -> Parsed<T>, id: T -> Str, len: nat, b: seq<byte>, o: Outcome<nat>, rest: seq<byte>)
    requires Mirrors(ReadCount(len, b, MAX_RECORDS), o, rest) && o.IsFailure()
    ensures RegistryFollows(r, id, len, b, o.PropagateFailure(), rest)
  {}

  method FileDevices(r: Reader, n: nat) returns (o: Outcome<map<Str, Device>>)
    requires r.Valid()
    modifies r
    ensures r.Valid() && FilesAll(ReadDevice, DeviceId, |r.data|, n, old(r.Rest()), o, r.Rest())
  {
    var filed: map<Str, Device> := map[];
    ghost var read: seq<Device> := [];
    NoneFiled(ReadDevice, DeviceId, |r.data|, n, r.Rest());
    ghost var k, rest := n, r.Rest();
    for i := 0 to n
      invariant r.Valid() && k == n - i && rest == r.Rest()
      invariant Filing(ReadDevice, DeviceId, |r.data|, n, old(r.Rest()), k, rest, read, filed)
    {
      var item := NextDevice(r);
      ghost var after := r.Rest();
      if !item.Ok? {
        FilingFails(ReadDevice, DeviceId, |r.data|, n, old(r.Rest()), k, rest, read, filed, item, after);
        return item.PropagateFailure();
      }
      ghost var all, j: nat := read + [item.value], k - 1;
      var more := filed[item.value.id := item.value];
      OneFiled(ReadDevice, DeviceId, |r.data|, n, old(r.Rest()), k, j, rest, read, filed, item, after, all, more);
      read, k, rest := all, j, after;
      filed := more;
    }
    AllFiled(ReadDevice, DeviceId, |r.data|, n, old(r.Rest()), r.Rest(), read, filed);
    o := Ok(filed);
  }

  method GetDevices(r: Reader) returns (o: Outcome<map<Str, Device>>)
    requires r.Valid()
    modifies r
    ensures r.Valid() && RegistryFollows(ReadDevice, DeviceId, |r.data|, old(r.Rest()), o, r.Rest())
  {
    ghost var start := r.Rest();
    var n := r.Count(MAX_RECORDS);
    if n.IsFailure() {
      NoRegistry(ReadDevice, DeviceId, |r.data|, start, n, r.Rest());
      return n.PropagateFailure();
    }
    ghost var rest := r.Rest();
    o := FileDevices(r, n.value);
    RegistryFiled(ReadDevice, DeviceId, |r.data|, start, n.value, rest, o, r.Rest());
  }

  method FileRegions(r: Reader, n: nat) returns (o: Outcome<map<Str, Region>>)
    requires r.Valid()
    modifies r
    ensures r.Valid() && FilesAll(ReadRegion, RegionId, |r.data|, n, old(r.Rest()), o, r.Rest())
  {
    var filed: map<Str, Region> := map[];
    ghost var read: seq<Region> := [];
    NoneFiled(ReadRegion, RegionId, |r.data|, n, r.Rest());
    ghost var k, rest := n, r.Rest();
    for i := 0 to n
      invariant r.Valid() && k == n - i && rest == r.Rest()
      invariant Filing(ReadRegion, RegionId, |r.data|, n, old(r.Rest()), k, rest, read, filed)
    {
      var item := NextRegion(r);
      ghost var after := r.Rest();
      if !item.Ok? {
        FilingFails(ReadRegion, RegionId, |r.data|, n, old(r.Rest()), k, rest, read, filed, item, after);
        return item.PropagateFailure();
      }
      ghost var all, j: nat := read + [item.value], k - 1;
      var more := filed[item.value.id := item.value];
      OneFiled(ReadRegion, RegionId, |r.data|, n, old(r.Rest()), k, j, rest, read, filed, item, after, all, more);
      read, k, rest := all, j, after;
      filed := more;
    }
    AllFiled(ReadRegion, RegionId, |r.data|, n, old(r.Rest()), r.Rest(), read, filed);
    o := Ok(filed);
  }

  method GetRegions(r: Reader) returns (o: Outcome<map<Str, Region>>)
    requires r.Valid()
    modifies r
    ensures r.Valid() && RegistryFollows(ReadRegion, RegionId, |r.data|, old(r.Rest()), o, r.Rest())
  {
    ghost var start := r.Rest();
    var n := r.Count(MAX_RECORDS);
    if n.IsFailure() {
      NoRegistry(ReadRegion, RegionId, |r.data|, start, n, r.Rest());
      return n.PropagateFailure();
    }
    ghost var rest := r.Rest();
    o := FileRegions(r, n.value);
    RegistryFiled(ReadRegion, RegionId, |r.data|, start, n.value, rest, o, r.Rest());
  }

  method FilePools(r: Reader, n: nat) returns (o: Outcome<map<Str, Pool>>)
    requires r.Valid()
    modifies r
    ensures r.Valid() && FilesAll(ReadPool, PoolId, |r.data|, n, old(r.Rest()), o, r.Rest())
  {
    var filed: map<Str, Pool> := map[];
    ghost var read: seq<Pool> := [];
    NoneFiled(ReadPool, PoolId, |r.data|, n, r.Rest());
    ghost var k, rest := n, r.Rest();
    for i := 0 to n
      invariant r.Valid() && k == n - i && rest == r.Rest()
      invariant Filing(ReadPool, PoolId, |r.data|, n, old(r.Rest()), k, rest, read, filed)
    {
      var item := NextPool(r);
      ghost var after := r.Rest();
      if !item.Ok? {
        FilingFails(ReadPool, PoolId, |r.data|, n, old(r.Rest()), k, rest, read, filed, item, after);
        return item.PropagateFailure();
      }
      ghost var all, j: nat := read + [item.value], k - 1;
      var more := filed[item.value.id := item.value];
      OneFiled(ReadPool, PoolId, |r.data|, n, old(r.Rest()), k, j, rest, read, filed, item, after, all, more);
      read, k, rest := all, j, after;
      filed := more;
    }
    AllFiled(ReadPool, PoolId, |r.data|, n, old(r.Rest()), r.Rest(), read, filed);
    o := Ok(filed);
  }

  method GetPools(r: Reader) returns (o: Outcome<map<Str, Pool>>)
    requires r.Valid()
    modifies r
    ensures r.Valid() && RegistryFollows(ReadPool, PoolId, |r.data|, old(r.Rest()), o, r.Rest())
  {
    ghost var start := r.Rest();
    var n := r.Count(MAX_RECORDS);
    if n.IsFailure() {
      NoRegistry(ReadPool, PoolId, |r.data|, start, n, r.Rest());
      return n.PropagateFailure();
    }
    ghost var rest := r.Rest();
    o := FilePools(r, n.value);
    RegistryFiled(ReadPool, PoolId, |r.data|, start, n.value, rest, o, r.Rest());
  }

  method GetBody(r: Reader) returns (o: Outcome<Persisted>)
    requires r.Valid()
    modifies r
    ensures r.Valid() && Mirrors(ReadBody(|r.data|, old(r.Rest())), o, r.Rest())
  {
    var policy :- r.U64();
    var devices :- GetDevices(r);
    var regions :- GetRegions(r);
    var pools :- GetPools(r);
    o := Ok(Persisted(policy, devices, regions, pools));
  }

  method DeserializeState(payload: seq<byte>) returns (o: Outcome<Persisted>)
    requires |payload| <= U64_MAX
    ensures o == Deserialize(payload)
  {
    if |payload| < 4 { return Refused; }
    var body := payload[..|payload| - 4];
    var stored := Load32(payload[|payload| - 4..]);
    var crc := ComputeCrc32(body);
    if crc != stored { return Refused; }
    if |body| < 8 { return ShortBody(payload); }
    var r := new Reader(body);
    var ps :- GetBody(r);
    if r.pos != |body| { return Refused; }
    o := Ok(ps);
  }

  // ---- the envelope ----

  method SealFile(payload: seq<byte>) returns (o: Outcome<seq<byte>>)
    ensures o == FileBytes(payload)
  {
    if |payload| > MAX_PAYLOAD { return Refused; }
    var magic := SplitU32(MAGIC);
    var version := SplitU32(VERSION);
    var length := SplitU32(|payload|);
    var header := magic + version + length + ZEROS;
    var crc := ComputeCrc32(header + payload);
    var checksum := SplitU32(crc);
    o := Ok(header + checksum + payload);
  }

  method UnsealFile(file: seq<byte>) returns (o: Outcome<seq<byte>>)
    ensures o == OpenFile(file)
  {
    if |file| < ENVELOPE_SIZE { return Refused; }
    var magic := Load32(file[..4]);
    var version := Load32(file[4..8]);
    var length := Load32(file[8..12]);
    if magic != MAGIC { return Refused; }
    if version != VERSION { return Refused; }
    if length > MAX_PAYLOAD { return Refused; }
    if |file| < ENVELOPE_SIZE + length { return Refused; }
    if |file| > ENVELOPE_SIZE + length { return Refused; }
    var payload := file[ENVELOPE_SIZE..];
    var crc := ComputeCrc32(file[..16] + payload);
    if crc != Load32(file[16..20]) { return Refused; }
    o := Ok(payload);
  }
}
