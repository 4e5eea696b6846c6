/** Round trips and corruption of the state file: payload, envelope and both together. */
module StateFile {
  import opened Base
  import opened Order
  import opened Records
  import opened Packing
  import opened Crc
  import opened Streams
  import opened Persistence

  // ---- registries ----

  lemma {:induction false} SortedKeysCount(s: set<Str>)
    ensures |SortedKeys(s)| == |s|
    decreases |s|
  {
    if s != {} { SortedKeysCount(s - {Least(s)}); }
  }

  lemma ValuesCount<T>(m: map<Str, T>)
    ensures |Values(m)| == |m|
  {
    SortedKeysCount(m.Keys);
    SortedKeysCover(m.Keys);
    assert |m.Keys| == |m|;
  }

  lemma ValueAt<T>(m: map<Str, T>, i: nat) returns (k: Str)
    requires i < |Values(m)|
    ensures k in m && Values(m)[i] == m[k]
  {
    SortedKeysCover(m.Keys);
    k := SortedKeys(m.Keys)[i];
    assert k in SortedKeys(m.Keys);
  }

  lemma ValueOf<T>(m: map<Str, T>, k: Str) returns (i: nat)
    requires k in m
    ensures i < |Values(m)| && Values(m)[i] == m[k]
  {
    SortedKeysCover(m.Keys);
    var keys := SortedKeys(m.Keys);
    assert k in keys;
    i :| 0 <= i < |keys| && keys[i] == k;
  }

  lemma AllValues<T>(f: T -> bool, m: map<Str, T>)
    ensures All(f, Values(m)) <==> AllIn(f, m)
  {
    forall i | 0 <= i < |Values(m)| && AllIn(f, m) ensures f(Values(m)[i]) {
      var _ := ValueAt(m, i);
    }
    forall k | k in m && All(f, Values(m)) ensures f(m[k]) {
      var _ := ValueOf(m, k);
    }
  }

  lemma {:induction false} FileAlong<T>(id: T -> Str, kept: T -> T, m: map<Str, T>, keys: seq<Str>)
    requires (forall k | k in keys :: k in m) && forall k | k in m :: id(kept(m[k])) == k
    ensures FileAll(id, Mapped(kept, ValuesAlong(m, keys))) == map k | k in keys :: kept(m[k])
  {
    if keys != [] {
      var n := |keys| - 1;
      FileAlong(id, kept, m, keys[..n]);
      var vs := Mapped(kept, ValuesAlong(m, keys));
      assert vs[..n] == Mapped(kept, ValuesAlong(m, keys[..n]));
      assert keys == keys[..n] + [keys[n]];
    }
  }

  /** Filing the kept records of a registry gives the registry of kept records. */
  lemma FileValues<T>(id: T -> Str, kept: T -> T, m: map<Str, T>)
    requires forall k | k in m :: id(kept(m[k])) == k
    ensures FileAll(id, Mapped(kept, Values(m))) == Kept(kept, m)
  {
    SortedKeysCover(m.Keys);
    FileAlong(id, kept, m, SortedKeys(m.Keys));
  }

  /** Each record of a registry reads back as its kept part, under its own key. */
  ghost predicate RegistryUndone<T(!new)>(
    r: (nat, seq<byte>) -> Parsed<T>, w: (T, seq<byte>) -> seq<byte>, fits: T -> bool, kept: T -> T, id: T -> Str,
    len: nat, m: map<Str, T>)
  {
    forall k | k in m :: id(kept(m[k])) == k && Undoes(r, w, fits, kept, len, m[k])
  }

  lemma ReadWrittenRecords<T(!new)>(
    r: (nat, seq<byte>) -> Parsed<T>, w: (T, seq<byte>) -> seq<byte>, fits: T -> bool, kept: T -> T, id: T -> Str,
    len: nat, m: map<Str, T>, t: seq<byte>)
    requires RegistryUndone(r, w, fits, kept, id, len, m)
    ensures ReadList(r, len, |m|, WList(w, Values(m), t), []) ==
      if AllIn(fits, m) then Ok((Mapped(kept, Values(m)), t)) else Refused
  {
    ValuesCount(m);
    forall i | 0 <= i < |Values(m)| ensures Undoes(r, w, fits, kept, len, Values(m)[i]) {
      var _ := ValueAt(m, i);
    }
    ReadWrittenList(r, w, fits, kept, len, Values(m), t, []);
    assert [] + Mapped(kept, Values(m)) == Mapped(kept, Values(m));
    AllValues(fits, m);
  }

  lemma ReadWrittenRegistry<T(!new)>(
    r: (nat, seq<byte>) -> Parsed<T>, w: (T, seq<byte>) -> seq<byte>, fits: T -> bool, kept: T -> T, id: T -> Str,
    len: nat, m: map<Str, T>, t: seq<byte>)
    requires |m| <= MAX_RECORDS && RegistryUndone(r, w, fits, kept, id, len, m)
    ensures ReadRegistry(r, id, len, WRegistry(w, m, t)) ==
      if AllIn(fits, m) then Ok((Kept(kept, m), t)) else Refused
  {
    ReadWrittenCount(len, |m|, WList(w, Values(m), t), MAX_RECORDS);
    ReadWrittenRecords(r, w, fits, kept, id, len, m, t);
    FileValues(id, kept, m);
  }

  lemma DeviceUndone(len: nat, d: Device)
    requires DeviceSized(d)
    ensures Undoes(ReadDevice, WDevice, DeviceFits, DurableDevice, len, d)
  {
    forall t ensures ReadDevice(len, WDevice(d, t)) == if DeviceFits(d) then Ok((DurableDevice(d), t)) else Refused {
      ReadWrittenDevice(len, d, t);
    }
  }

  lemma RegionUndone(len: nat, r: Region)
    requires RegionSized(r)
    ensures Undoes(ReadRegion, WRegion, RegionFits, DurableRegion, len, r)
  {
    forall t ensures ReadRegion(len, WRegion(r, t)) == if RegionFits(r) then Ok((DurableRegion(r), t)) else Refused {
      ReadWrittenRegion(len, r, t);
    }
  }

  lemma PoolUndone(len: nat, p: Pool)
    requires PoolSized(p)
    ensures Undoes(ReadPool, WPool, PoolFits, DurablePool, len, p)
  {
    forall t ensures ReadPool(len, WPool(p, t)) == if PoolFits(p) then Ok((DurablePool(p), t)) else Refused {
      ReadWrittenPool(len, p, t);
    }
  }

  lemma DevicesUndone(len: nat, ps: Persisted)
    requires Expressible(ps)
    ensures RegistryUndone(ReadDevice, WDevice, DeviceFits, DurableDevice, DeviceId, len, ps.devices)
  {
    forall k | k in ps.devices ensures DeviceId(DurableDevice(ps.devices[k])) == k
      && Undoes(ReadDevice, WDevice, DeviceFits, DurableDevice, len, ps.devices[k])
    {
      DeviceUndone(len, ps.devices[k]);
    }
  }

  lemma RegionsUndone(len: nat, ps: Persisted)
    requires Expressible(ps)
    ensures RegistryUndone(ReadRegion, WRegion, RegionFits, DurableRegion, RegionId, len, ps.regions)
  {
    forall k | k in ps.regions ensures RegionId(DurableRegion(ps.regions[k])) == k
      && Undoes(ReadRegion, WRegion, RegionFits, DurableRegion, len, ps.regions[k])
    {
      RegionUndone(len, ps.regions[k]);
    }
  }

  lemma PoolsUndone(len: nat, ps: Persisted)
    requires Expressible(ps)
    ensures RegistryUndone(ReadPool, WPool, PoolFits, DurablePool, PoolId, len, ps.pools)
  {
    forall k | k in ps.pools ensures PoolId(DurablePool(ps.pools[k])) == k
      && Undoes(ReadPool, WPool, PoolFits, DurablePool, len, ps.pools[k])
    {
      PoolUndone(len, ps.pools[k]);
    }
  }

  /** Reading a registry from b gives p; stated over every equal length so that no reader unfolds. */
  ghost predicate RegistryReads<T(!new)>(
    r: (nat, seq<byte>) -> Parsed<T>, id: T -> Str, len: nat, b: seq<byte>, p: Parsed<map<Str, T>>)
  {
    forall l: nat | l == len :: ReadRegistry(r, id, l, b) == p
  }

  function Outcomes<T>(fit: bool, m: map<Str, T>, t: seq<byte>): Parsed<map<Str, T>> {
    if fit then Ok((m, t)) else Refused
  }

  lemma ReadWrittenDevices(len: nat, ps: Persisted, t: seq<byte>)
    requires Expressible(ps) && |ps.devices| <= MAX_RECORDS
    ensures RegistryReads(ReadDevice, DeviceId, len, WRegistry(WDevice, ps.devices, t),
                          Outcomes(AllIn(DeviceFits, ps.devices), Kept(DurableDevice, ps.devices), t))
  {
    DevicesUndone(len, ps);
    ReadWrittenRegistry(ReadDevice, WDevice, DeviceFits, DurableDevice, DeviceId, len, ps.devices, t);
  }

  lemma ReadWrittenRegions(len: nat, ps: Persisted, t: seq<byte>)
    requires Expressible(ps) && |ps.regions| <= MAX_RECORDS
    ensures RegistryReads(ReadRegion, RegionId, len, WRegistry(WRegion, ps.regions, t),
                          Outcomes(AllIn(RegionFits, ps.regions), Kept(DurableRegion, ps.regions), t))
  {
    RegionsUndone(len, ps);
    ReadWrittenRegistry(ReadRegion, WRegion, RegionFits, DurableRegion, RegionId, len, ps.regions, t);
  }

  lemma ReadWrittenPools(len: nat, ps: Persisted, t: seq<byte>)
    requires Expressible(ps) && |ps.pools| <= MAX_RECORDS
    ensures RegistryReads(ReadPool, PoolId, len, WRegistry(WPool, ps.pools, t),
                          Outcomes(AllIn(PoolFits, ps.pools), Kept(DurablePool, ps.pools), t))
  {
    PoolsUndone(len, ps);
    ReadWrittenRegistry(ReadPool, WPool, PoolFits, DurablePool, PoolId, len, ps.pools, t);
  }

  ghost predicate BodyReads(len: nat, b: seq<byte>, p: Parsed<Persisted>) {
    forall l: nat | l == len :: ReadBody(l, b) == p
  }

  lemma BodyFromParts(
    len: nat, b: seq<byte>, policy: u64, b1: seq<byte>, b2: seq<byte>, b3: seq<byte>, d: bool, r: bool, p: bool,
    devices: map<Str, Device>, regions: map<Str, Region>, pools: map<Str, Pool>)
    requires ReadU64(len, b) == Ok((policy, b1))
    requires RegistryReads(ReadDevice, DeviceId, len, b1, Outcomes(d, devices, b2))
    requires RegistryReads(ReadRegion, RegionId, len, b2, Outcomes(r, regions, b3))
    requires RegistryReads(ReadPool, PoolId, len, b3, Outcomes(p, pools, []))
    ensures BodyReads(len, b, if d && r && p then Ok((Persisted(policy, devices, regions, pools), [])) else Refused)
  {
    assert ReadRegistry(ReadDevice, DeviceId, len, b1) == Outcomes(d, devices, b2);
    assert ReadRegistry(ReadRegion, RegionId, len, b2) == Outcomes(r, regions, b3);
    assert ReadRegistry(ReadPool, PoolId, len, b3) == Outcomes(p, pools, []);
  }

  lemma ReadWrittenBody(len: nat, ps: Persisted)
    requires Expressible(ps)
    requires |ps.devices| <= MAX_RECORDS && |ps.regions| <= MAX_RECORDS && |ps.pools| <= MAX_RECORDS
    ensures BodyReads(len, Body(ps), if Readable(ps) then Ok((Durable(ps), [])) else Refused)
  {
    var t2 := WRegistry(WPool, ps.pools, []);
    var t1 := WRegistry(WRegion, ps.regions, t2);
    ReadWrittenU64(len, ps.policyGeneration, WRegistry(WDevice, ps.devices, t1));
    ReadWrittenDevices(len, ps, t1);
    ReadWrittenRegions(len, ps, t2);
    ReadWrittenPools(len, ps, []);
    BodyFromParts(
      len, Body(ps), ps.policyGeneration, WRegistry(WDevice, ps.devices, t1), t1, t2,
      AllIn(DeviceFits, ps.devices), AllIn(RegionFits, ps.regions), AllIn(PoolFits, ps.pools),
      Kept(DurableDevice, ps.devices), Kept(DurableRegion, ps.regions), Kept(DurablePool, ps.pools));
  }

  // ---- the payload ----

  lemma FootedSlices(body: seq<byte>)
    ensures var p := Footed(body);
      && |p| == |body| + 4 && p[..|p| - 4] == body && p[|p| - 4..] == U32Bytes(Crc32(body))
      && Load32(p[|p| - 4..]) == Crc32(body)
  {
    LoadU32(Crc32(body));
  }

  lemma BodyIsLong(ps: Persisted)
    ensures |Body(ps)| >= 8
  {}

  /**
   * What is written reads back as its durable projection, with nothing left over, exactly when every registry, string
   * and list is within the reader's bounds. The writer itself checks none of them but the registry sizes.
   */
  lemma PayloadRoundTrip(ps: Persisted)
    requires Expressible(ps)
    ensures Serialize(ps).Ok? && Deserialize(Serialize(ps).value) == Ok(Durable(ps)) <==> Readable(ps)
    ensures Serialize(ps).Ok? && !Readable(ps) ==> Deserialize(Serialize(ps).value).Refused?
  {
    if Serialize(ps).Ok? { FootedRoundTrip(ps); }
  }

  lemma FootedRoundTrip(ps: Persisted)
    requires Expressible(ps)
    requires |ps.devices| <= MAX_RECORDS && |ps.regions| <= MAX_RECORDS && |ps.pools| <= MAX_RECORDS
    ensures Deserialize(Footed(Body(ps))) == if Readable(ps) then Ok(Durable(ps)) else Refused
  {
    BodyIsLong(ps);
    ReadWrittenBody(|Body(ps)|, ps);
    FootedReads(Body(ps), if Readable(ps) then Ok((Durable(ps), [])) else Refused);
  }

  /** A footed body is read from its first byte, and has to be used up. */
  lemma FootedReads(body: seq<byte>, p: Parsed<Persisted>)
    requires |body| >= 8 && BodyReads(|body|, body, p) && !p.Overran? && (p.Ok? ==> p.value.1 == [])
    ensures Deserialize(Footed(body)) == if p.Ok? then Ok(p.value.0) else Refused
  {
    FootedSlices(body);
    assert ReadBody(|body|, body) == p;
  }

  /** A payload is accepted exactly when its last four bytes are the checksum of the rest and the rest is used up. */
  lemma DeserializeIff(p: seq<byte>, ps: Persisted)
    ensures Deserialize(p) == Ok(ps) <==>
      && |p| >= 12
      && Crc32(p[..|p| - 4]) == Number32(p[|p| - 4], p[|p| - 3], p[|p| - 2], p[|p| - 1])
      && ReadBody(|p| - 4, p[..|p| - 4]) == Ok((ps, []))
  {
    if |p| >= 4 { Value32(p[|p| - 4..]); }
  }

  /** A payload whose last four bytes are not the checksum of the rest is refused. */
  lemma CorruptFootedRefused(body: seq<byte>, i: nat, v: byte)
    requires i < |Footed(body)| && v != Footed(body)[i]
    ensures Deserialize(Footed(body)[i := v]).Refused?
  {
    var p, n := Footed(body), |body|;
    FootedSlices(body);
    var bad := p[i := v];
    if i < n {
      assert bad[..|bad| - 4] == body[i := v] && bad[|bad| - 4..] == p[n..];
      CrcDetectsByteChange(body, i, v);
    } else {
      assert bad[..|bad| - 4] == body && bad[|bad| - 4..][i - n] != p[n..][i - n];
    }
  }

  /** Changing any single byte of any serialized payload is always refused. */
  lemma CorruptPayloadRefused(ps: Persisted, i: nat, v: byte)
    requires Serialize(ps).Ok? && i < |Serialize(ps).value| && v != Serialize(ps).value[i]
    ensures Deserialize(Serialize(ps).value[i := v]).Refused?
  {
    CorruptFootedRefused(Body(ps), i, v);
  }

  // ---- writing the projection ----

  lemma SameDeviceBytes(d: Device, t: seq<byte>)
    ensures WDevice(DurableDevice(d), t) == WDevice(d, t)
  {}

  lemma SameRegionBytes(r: Region, t: seq<byte>)
    ensures WRegion(DurableRegion(r), t) == WRegion(r, t)
  {}

  lemma SamePoolBytes(p: Pool, t: seq<byte>)
    ensures WPool(DurablePool(p), t) == WPool(p, t)
  {}

  ghost predicate SameBytes<T(!new)>(w: (T, seq<byte>) -> seq<byte>, kept: T -> T, m: map<Str, T>) {
    forall k, u | k in m :: w(kept(m[k]), u) == w(m[k], u)
  }

  lemma SameRegistryBytes<T(!new)>(w: (T, seq<byte>) -> seq<byte>, kept: T -> T, m: map<Str, T>, t: seq<byte>)
    requires SameBytes(w, kept, m)
    ensures WRegistry(w, Kept(kept, m), t) == WRegistry(w, m, t) && |Kept(kept, m)| == |m|
  {
    var durable := Kept(kept, m);
    assert durable.Keys == m.Keys;
    assert |durable.Keys| == |durable| && |m.Keys| == |m|;
    SortedKeysCover(m.Keys);
    forall i, u | 0 <= i < |Values(m)| ensures w(Values(durable)[i], u) == w(Values(m)[i], u) {
      assert SortedKeys(m.Keys)[i] in SortedKeys(m.Keys);
    }
    WListAgrees(w, Values(durable), Values(m), t);
  }

  lemma SameDevices(m: map<Str, Device>)
    ensures SameBytes(WDevice, DurableDevice, m)
  {
    forall k, u | k in m ensures WDevice(DurableDevice(m[k]), u) == WDevice(m[k], u) {
      SameDeviceBytes(m[k], u);
    }
  }

  lemma SameRegions(m: map<Str, Region>)
    ensures SameBytes(WRegion, DurableRegion, m)
  {
    forall k, u | k in m ensures WRegion(DurableRegion(m[k]), u) == WRegion(m[k], u) {
      SameRegionBytes(m[k], u);
    }
  }

  lemma SamePools(m: map<Str, Pool>)
    ensures SameBytes(WPool, DurablePool, m)
  {
    forall k, u | k in m ensures WPool(DurablePool(m[k]), u) == WPool(m[k], u) {
      SamePoolBytes(m[k], u);
    }
  }

  lemma KeptTwice<T(!new)>(kept: T -> T, m: map<Str, T>)
    requires forall x :: kept(kept(x)) == kept(x)
    ensures Kept(kept, Kept(kept, m)) == Kept(kept, m)
  {}

  lemma SameBody(ps: Persisted)
    ensures Body(Durable(ps)) == Body(ps)
    ensures |Durable(ps).devices| == |ps.devices| && |Durable(ps).regions| == |ps.regions|
    ensures |Durable(ps).pools| == |ps.pools|
  {
    SamePools(ps.pools);
    SameRegions(ps.regions);
    SameDevices(ps.devices);
    var t2 := WRegistry(WPool, ps.pools, []);
    SameRegistryBytes(WPool, DurablePool, ps.pools, []);
    SameRegistryBytes(WRegion, DurableRegion, ps.regions, t2);
    SameRegistryBytes(WDevice, DurableDevice, ps.devices, WRegistry(WRegion, ps.regions, t2));
  }

  lemma DurableTwice(ps: Persisted)
    ensures Durable(Durable(ps)) == Durable(ps)
  {
    KeptTwice(DurableDevice, ps.devices);
    KeptTwice(DurableRegion, ps.regions);
    KeptTwice(DurablePool, ps.pools);
  }

  /** The projection has the same file as the state, and projecting twice changes nothing more. */
  lemma ProjectionIsStable(ps: Persisted)
    ensures Serialize(Durable(ps)) == Serialize(ps) && Durable(Durable(ps)) == Durable(ps)
  {
    SameBody(ps);
    DurableTwice(ps);
  }

  // ---- the envelope ----

  const MAGIC: u32 := 0x4358_4C50
  const VERSION: u32 := 1
  const MAX_PAYLOAD: nat := 0x100_0000
  const ENVELOPE_SIZE: nat := 20

  /** magic, version, length, and four bytes kept zero. */
  ghost function Header(length: u32, spare: seq<byte>): (b: seq<byte>)
    requires |spare| == 4
    ensures |b| == 16
  {
    U32Bytes(MAGIC) + U32Bytes(VERSION) + U32Bytes(length) + spare
  }

  ghost function Enveloped(payload: seq<byte>, spare: seq<byte>): seq<byte>
    requires |payload| <= MAX_PAYLOAD && |spare| == 4
  {
    var header := Header(|payload|, spare);
    header + U32Bytes(Crc32(header + payload)) + payload
  }

  const ZEROS: seq<byte> := [0, 0, 0, 0]

  ghost function FileBytes(payload: seq<byte>): Outcome<seq<byte>> {
    if |payload| > MAX_PAYLOAD then Refused else Ok(Enveloped(payload, ZEROS))
  }

  predicate EnvelopeAccepted(file: seq<byte>) {
    && |file| >= ENVELOPE_SIZE
    && Load32(file[..4]) == MAGIC && Load32(file[4..8]) == VERSION
    && Load32(file[8..12]) <= MAX_PAYLOAD && |file| == ENVELOPE_SIZE + Load32(file[8..12])
    && Crc32(file[..16] + file[ENVELOPE_SIZE..]) == Load32(file[16..20])
  }

  function OpenFile(file: seq<byte>): Outcome<seq<byte>> {
    if EnvelopeAccepted(file) then Ok(file[ENVELOPE_SIZE..]) else Refused
  }

  /** What the reader demands of a file: CXLP, version 1, a length of at most 2^24 that is met exactly, the checksum. */
  lemma OpenFileIff(file: seq<byte>)
    ensures OpenFile(file).Ok? <==>
      && |file| >= 20 && file[0] == 0x43 && file[1] == 0x58 && file[2] == 0x4C && file[3] == 0x50
      && file[4] == 0 && file[5] == 0 && file[6] == 0 && file[7] == 1
      && Number32(file[8], file[9], file[10], file[11]) <= 0x100_0000
      && |file| == 20 + Number32(file[8], file[9], file[10], file[11])
      && Crc32(file[..16] + file[20..]) == Number32(file[16], file[17], file[18], file[19])
    ensures OpenFile(file).Ok? ==> OpenFile(file) == Ok(file[20..])
  {
    if |file| >= 20 { EnvelopeNumbers(file); }
  }

  lemma MagicBytes(b: seq<byte>)
    requires |b| == 4
    ensures Load32(b) == 0x4358_4C50 <==> b[0] == 0x43 && b[1] == 0x58 && b[2] == 0x4C && b[3] == 0x50
  {
    Value32(b);
  }

  lemma VersionBytes(b: seq<byte>)
    requires |b| == 4
    ensures Load32(b) == 1 <==> b[0] == 0 && b[1] == 0 && b[2] == 0 && b[3] == 1
  {
    Value32(b);
  }

  lemma EnvelopeNumbers(d: seq<byte>)
    requires |d| >= 20
    ensures Load32(d[..4]) == 0x4358_4C50 <==> d[0] == 0x43 && d[1] == 0x58 && d[2] == 0x4C && d[3] == 0x50
    ensures Load32(d[4..8]) == 1 <==> d[4] == 0 && d[5] == 0 && d[6] == 0 && d[7] == 1
    ensures Load32(d[8..12]) == Number32(d[8], d[9], d[10], d[11])
    ensures Load32(d[16..20]) == Number32(d[16], d[17], d[18], d[19])
  {
    MagicBytes(d[..4]);
    VersionBytes(d[4..8]);
    Value32(d[8..12]);
    Value32(d[16..20]);
  }

  lemma Pieces(a: seq<byte>, b: seq<byte>, c: seq<byte>, d: seq<byte>, e: seq<byte>, p: seq<byte>)
    requires |a| == |b| == |c| == |d| == |e| == 4
    ensures var x := a + b + c + d + e + p;
      && |x| == 20 + |p| && x[..4] == a && x[4..8] == b && x[8..12] == c && x[12..16] == d
      && x[..16] == a + b + c + d && x[16..20] == e && x[20..] == p
  {}

  lemma Unpieced(x: seq<byte>)
    requires |x| >= 20
    ensures x == x[..4] + x[4..8] + x[8..12] + x[12..16] + x[16..20] + x[20..]
    ensures x[..16] == x[..4] + x[4..8] + x[8..12] + x[12..16]
  {}

  lemma EnvelopedOpens(payload: seq<byte>, spare: seq<byte>)
    requires |payload| <= MAX_PAYLOAD && |spare| == 4
    ensures OpenFile(Enveloped(payload, spare)) == Ok(payload)
    ensures Enveloped(payload, spare)[12..16] == spare
  {
    var crc := Crc32(Header(|payload|, spare) + payload);
    Pieces(U32Bytes(MAGIC), U32Bytes(VERSION), U32Bytes(|payload|), spare, U32Bytes(crc), payload);
    LoadU32(MAGIC);
    LoadU32(VERSION);
    LoadU32(|payload|);
    LoadU32(crc);
  }

  /** Every payload that fits the file comes back out of it. */
  lemma EnvelopeRoundTrip(payload: seq<byte>)
    requires FileBytes(payload).Ok?
    ensures OpenFile(FileBytes(payload).value) == Ok(payload)
  {
    EnvelopedOpens(payload, ZEROS);
  }

  lemma AcceptedIsEnvelope(file: seq<byte>)
    requires EnvelopeAccepted(file)
    ensures file == Enveloped(file[ENVELOPE_SIZE..], file[12..16])
  {
    Unpieced(file);
  }

  /** An accepted file is one the writer produces exactly when its four spare bytes are zero. */
  lemma AcceptedIsWrittenIff(file: seq<byte>)
    requires OpenFile(file).Ok?
    ensures FileBytes(OpenFile(file).value) == Ok(file) <==> file[12..16] == ZEROS
  {
    AcceptedIsEnvelope(file);
    EnvelopedOpens(OpenFile(file).value, ZEROS);
  }

  lemma ChangedByteShows(d: seq<byte>, i: nat, v: byte)
    requires |d| >= 20 && i < |d| && v != d[i]
    ensures 16 <= i < 20 ==>
      d[i := v][..16] + d[i := v][20..] == d[..16] + d[20..] && d[i := v][16..20] != d[16..20]
    ensures !(16 <= i < 20) ==>
      var j := if i < 16 then i else i - 4;
      && j < |d[..16] + d[20..]| && v != (d[..16] + d[20..])[j]
      && d[i := v][..16] + d[i := v][20..] == (d[..16] + d[20..])[j := v] && d[i := v][16..20] == d[16..20]
  {
    if 16 <= i < 20 {
      assert d[i := v][16..20][i - 16] == v && d[16..20][i - 16] == d[i];
    }
  }

  /** Changing any single byte of an accepted file is always refused. */
  lemma CorruptFileRefused(file: seq<byte>, i: nat, v: byte)
    requires OpenFile(file).Ok? && i < |file| && v != file[i]
    ensures OpenFile(file[i := v]).Refused?
  {
    ChangedByteShows(file, i, v);
    if !(16 <= i < 20) {
      CrcDetectsByteChange(file[..16] + file[20..], if i < 16 then i else i - 4, v);
    }
  }

  // ---- save and load ----

  ghost function Save(ps: Persisted): Outcome<seq<byte>> {
    var payload :- Serialize(ps);
    FileBytes(payload)
  }

  function Load(file: seq<byte>): Outcome<Persisted> {
    var payload :- OpenFile(file);
    Deserialize(payload)
  }

  function Changed(file: seq<byte>, i: nat, v: byte): seq<byte>
    requires i < |file|
  {
    file[i := v]
  }

  /** A saved state loads as its durable projection, and no single changed byte of its file loads at all. */
  lemma SaveThenLoad(ps: Persisted)
    requires Expressible(ps) && Readable(ps) && Save(ps).Ok?
    ensures Load(Save(ps).value) == Ok(Durable(ps))
    ensures forall i, v: byte | 0 <= i < |Save(ps).value| && v != Save(ps).value[i] ::
      Load(Changed(Save(ps).value, i, v)).Refused?
  {
    PayloadRoundTrip(ps);
    EnvelopeRoundTrip(Serialize(ps).value);
    var file := Save(ps).value;
    forall i, v: byte | 0 <= i < |file| && v != file[i] ensures Load(Changed(file, i, v)).Refused? {
      CorruptFileRefused(file, i, v);
    }
  }
}
