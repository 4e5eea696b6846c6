/** Big-endian packing of fixed-width integers. */
module Packing {
  import opened Base

  const W16: nat := 2
  const W32: nat := 4
  const W64: nat := 8

  /** The low n bytes of v, most significant first. */
  function BigEndian(v: nat, n: nat): (b: seq<byte>)
    ensures |b| == n
    decreases n
  {
    if n == 0 then [] else BigEndian(v / 256, n - 1) + [v % 256]
  }

  function Value(b: seq<byte>): nat {
    if b == [] then 0 else 256 * Value(b[..|b| - 1]) + b[|b| - 1] as int
  }

  function Pow256(n: nat): nat {
    if n == 0 then 1 else 256 * Pow256(n - 1)
  }

  lemma Pow256Values()
    ensures Pow256(W16) == 0x1_0000 && Pow256(W32) == 0x1_0000_0000
    ensures Pow256(W64) == 0x1_0000_0000_0000_0000
  {
    assert Pow256(2) == 0x1_0000;
    assert Pow256(4) == 0x1_0000_0000;
    assert Pow256(6) == 0x1_0000_0000_0000;
  }

  lemma {:induction false} ValueOfBigEndian(v: nat, n: nat)
    requires v < Pow256(n)
    ensures Value(BigEndian(v, n)) == v
    decreases n
  {
    if n != 0 {
      ValueOfBigEndian(v / 256, n - 1);
      assert BigEndian(v, n)[..n - 1] == BigEndian(v / 256, n - 1);
    }
  }

  lemma {:induction false} BigEndianOfValue(b: seq<byte>)
    ensures Value(b) < Pow256(|b|)
    ensures BigEndian(Value(b), |b|) == b
  {
    if b != [] {
      var init := b[..|b| - 1];
      BigEndianOfValue(init);
      assert Value(b) / 256 == Value(init) && Value(b) % 256 == b[|b| - 1];
      assert b == init + [b[|b| - 1]];
    }
  }

  /** b is the size-byte form of v. Stated over every n so that nothing unfolds until a width is named. */
  ghost predicate Packs(b: seq<byte>, v: nat, size: nat) {
    |b| == size && forall n: nat | n == size :: b == BigEndian(v, n)
  }

  ghost function Packed(v: nat, size: nat): (b: seq<byte>)
    ensures |b| == size
  {
    assert Packs(BigEndian(v, size), v, size);
    var b :| Packs(b, v, size);
    b
  }

  lemma PackedIs(v: nat, size: nat)
    ensures Packed(v, size) == BigEndian(v, size)
  {
    assert Packs(BigEndian(v, size), v, size);
    assert Packs(Packed(v, size), v, size);
  }

  ghost function U16Bytes(v: u16): (b: seq<byte>)
    ensures |b| == 2
  {
    Packed(v, W16)
  }

  ghost function U32Bytes(v: u32): (b: seq<byte>)
    ensures |b| == 4
  {
    Packed(v, W32)
  }

  ghost function U64Bytes(v: u64): (b: seq<byte>)
    ensures |b| == 8
  {
    Packed(v, W64)
  }

  function Load16(b: seq<byte>): (v: u16)
    requires |b| == 2
    ensures b == U16Bytes(v)
  {
    BigEndianOfValue(b);
    PackedIs(Value(b), W16);
    Pow256Values();
    Value(b)
  }

  function Load32(b: seq<byte>): (v: u32)
    requires |b| == 4
    ensures b == U32Bytes(v)
  {
    BigEndianOfValue(b);
    PackedIs(Value(b), W32);
    Pow256Values();
    Value(b)
  }

  function Load64(b: seq<byte>): (v: u64)
    requires |b| == 8
    ensures b == U64Bytes(v)
  {
    BigEndianOfValue(b);
    PackedIs(Value(b), W64);
    Pow256Values();
    Value(b)
  }

  lemma LoadU16(v: u16)
    ensures Load16(U16Bytes(v)) == v
  {
    Pow256Values();
    PackedIs(v, W16);
    ValueOfBigEndian(v, W16);
  }

  lemma LoadU32(v: u32)
    ensures Load32(U32Bytes(v)) == v
  {
    Pow256Values();
    PackedIs(v, W32);
    ValueOfBigEndian(v, W32);
  }

  lemma LoadU64(v: u64)
    ensures Load64(U64Bytes(v)) == v
  {
    Pow256Values();
    PackedIs(v, W64);
    ValueOfBigEndian(v, W64);
  }

  /** The number of two or four bytes, the high one first. */
  function Number16(a: int, b: int): int {
    256 * a + b
  }

  function Number32(a: int, b: int, c: int, d: int): int {
    0x100_0000 * a + 0x1_0000 * b + 256 * c + d
  }

  lemma Value16(b: seq<byte>)
    requires |b| == 2
    ensures Load16(b) == Number16(b[0], b[1])
  {
    assert b[..1][..0] == [] && b[..1][0] == b[0];
    assert Value(b[..1]) == b[0];
    assert Value(b) == 256 * Value(b[..1]) + b[1] as int;
  }

  lemma Value32(b: seq<byte>)
    requires |b| == 4
    ensures Load32(b) == Number32(b[0], b[1], b[2], b[3])
  {
    Value16(b[..2]);
    assert b[..3][..2] == b[..2];
    assert Value(b[..3]) == 256 * Value(b[..2]) + b[2] as int;
    assert Value(b) == 256 * Value(b[..3]) + b[3] as int;
  }

  lemma BigEndianStep(v: nat, n: nat)
    ensures BigEndian(v, n + 1) == BigEndian(v / 256, n) + [v % 256]
  {}

  lemma ShiftsOfU16(v: nat)
    ensures Packed(v, W16) == [v / 256 % 256, v % 256]
  {
    PackedIs(v, W16);
    BigEndianStep(v, 1);
    BigEndianStep(v / 256, 0);
  }

  lemma ShiftsOfU32(v: nat)
    ensures Packed(v, W32) == [v / 0x100_0000 % 256, v / 0x1_0000 % 256, v / 256 % 256, v % 256]
  {
    PackedIs(v, W32);
    PackedIs(v / 0x1_0000, W16);
    BigEndianStep(v, 3);
    BigEndianStep(v / 256, 2);
    assert v / 256 / 256 == v / 0x1_0000;
    ShiftsOfU16(v / 0x1_0000);
    assert v / 0x1_0000 / 256 == v / 0x100_0000;
  }

  lemma LastFourBytes(v: nat, n: nat)
    ensures BigEndian(v, n + 4) ==
      BigEndian(v / 0x1_0000_0000, n) + [v / 0x100_0000 % 256, v / 0x1_0000 % 256, v / 256 % 256, v % 256]
  {
    BigEndianStep(v, n + 3);
    BigEndianStep(v / 256, n + 2);
    BigEndianStep(v / 256 / 256, n + 1);
    BigEndianStep(v / 256 / 256 / 256, n);
    assert v / 256 / 256 == v / 0x1_0000 && v / 0x1_0000 / 256 == v / 0x100_0000;
    assert v / 0x100_0000 / 256 == v / 0x1_0000_0000;
  }

  lemma ShiftsOfU64(v: nat)
    ensures Packed(v, W64) == [
      v / 0x1_0000_0000 / 0x100_0000 % 256, v / 0x1_0000_0000 / 0x1_0000 % 256, v / 0x1_0000_0000 / 256 % 256,
      v / 0x1_0000_0000 % 256, v / 0x100_0000 % 256, v / 0x1_0000 % 256, v / 256 % 256, v % 256]
  {
    PackedIs(v, W64);
    PackedIs(v / 0x1_0000_0000, W32);
    LastFourBytes(v, W32);
    ShiftsOfU32(v / 0x1_0000_0000);
  }
}

/** The checksummed frame of the multiprocess control plane. */
module Frames {
  import opened Base
  import opened Packing
  import opened Crc

  const MAGIC: u32 := 0x4358_4C46
  const VERSION: u16 := 1
  const HEADER_SIZE: nat := 16
  const MAX_PAYLOAD: nat := 65536
  const LAST_TYPE: u16 := 23

  datatype Frame = Frame(kind: u16, payload: seq<byte>)

  datatype DecodeStatus =
    | DecodeOk | BadMagic | BadVersion | BadType | Oversized | Truncated | BadChecksum | TrailingGarbage

  datatype DecodeResult = DecodeResult(status: DecodeStatus, frame: Frame, consumed: nat)

  predicate ValidType(t: u16) {
    1 <= t <= LAST_TYPE
  }

  /** What a sender may put on the wire. */
  predicate Sendable(f: Frame) {
    ValidType(f.kind) && |f.payload| <= MAX_PAYLOAD
  }

  /** magic, version, type, length: the twelve header bytes the checksum covers. */
  ghost function Prefix(version: u16, kind: u16, length: u32): (b: seq<byte>)
    ensures |b| == 12
  {
    U32Bytes(MAGIC) + U16Bytes(version) + U16Bytes(kind) + U32Bytes(length)
  }

  ghost function Sealed(prefix: seq<byte>, payload: seq<byte>): seq<byte> {
    prefix + U32Bytes(Crc32(prefix + payload)) + payload
  }

  /** The bytes of a frame. An oversized payload leaves a header with no length and no checksum. */
  ghost function FrameBytes(f: Frame, version: u16): seq<byte> {
    if |f.payload| > MAX_PAYLOAD then Prefix(version, f.kind, 0) + [0, 0, 0, 0]
    else Sealed(Prefix(version, f.kind, |f.payload|), f.payload)
  }

  method StoreU32(a: array<byte>, at: nat, v: u32)
    requires at + 4 <= a.Length
    modifies a
    ensures a[..] == old(a[..at]) + U32Bytes(v) + old(a[at + 4..])
  {
    ShiftsOfU32(v);
    a[at] := v / 0x100_0000;
    a[at + 1] := v / 0x1_0000 % 256;
    a[at + 2] := v / 256 % 256;
    a[at + 3] := v % 256;
  }

  method StoreU16(a: array<byte>, at: nat, v: u16)
    requires at + 2 <= a.Length
    modifies a
    ensures a[..] == old(a[..at]) + U16Bytes(v) + old(a[at + 2..])
  {
    ShiftsOfU16(v);
    a[at] := v / 256;
    a[at + 1] := v % 256;
  }

  /** A header whose length and checksum are still zero. */
  method NewHeader(version: u16, kind: u16) returns (header: array<byte>)
    ensures fresh(header) && header.Length == HEADER_SIZE
    ensures header[..] == Prefix(version, kind, 0) + [0, 0, 0, 0]
  {
    header := new byte[HEADER_SIZE](_ => 0);
    ghost var zeros := header[..];
    StoreU32(header, 0, MAGIC);
    assert header[..] == U32Bytes(MAGIC) + zeros[4..];
    StoreU16(header, 4, version);
    assert header[..] == U32Bytes(MAGIC) + U16Bytes(version) + zeros[6..];
    StoreU16(header, 6, kind);
    ZeroWord();
    assert zeros[8..] == U32Bytes(0) + [0, 0, 0, 0];
    assert header[..] == U32Bytes(MAGIC) + U16Bytes(version) + U16Bytes(kind) + zeros[8..];
    Regroup(U32Bytes(MAGIC) + U16Bytes(version) + U16Bytes(kind), U32Bytes(0), [0, 0, 0, 0]);
  }

  lemma ZeroWord()
    ensures U32Bytes(0) == [0, 0, 0, 0]
  {
    ShiftsOfU32(0);
  }

  lemma Regroup(a: seq<byte>, b: seq<byte>, c: seq<byte>)
    ensures a + (b + c) == a + b + c
  {}

  method EncodeFrame(f: Frame, version: u16) returns (out: seq<byte>)
    ensures out == FrameBytes(f, version)
  {
    var header := NewHeader(version, f.kind);
    if |f.payload| > MAX_PAYLOAD { return header[..]; }
    StoreU32(header, 8, |f.payload|);
    var prefix := header[..12];
    assert prefix == Prefix(version, f.kind, |f.payload|);
    var crc := ComputeCrc32(prefix + f.payload);
    StoreU32(header, 12, crc);
    assert header[..] == prefix + U32Bytes(crc);
    out := header[..] + f.payload;
  }

  /** The verdict on a received buffer, in the order the checks are made. */
  function Verdict(data: seq<byte>): DecodeStatus {
    if |data| < HEADER_SIZE then Truncated
    else if Load32(data[..4]) != MAGIC then BadMagic
    else if Load16(data[4..6]) != VERSION then BadVersion
    else if !ValidType(Load16(data[6..8])) then BadType
    else if Load32(data[8..12]) > MAX_PAYLOAD then Oversized
    else
      var total := HEADER_SIZE + Load32(data[8..12]);
      if total > |data| then Truncated
      else if Crc32(data[..12] + data[HEADER_SIZE..total]) != Load32(data[12..16]) then BadChecksum
      else if total != |data| then TrailingGarbage
      else DecodeOk
  }

  method DecodeFrame(data: seq<byte>) returns (r: DecodeResult)
    ensures r.status == Verdict(data)
    ensures r.status.DecodeOk? ==>
      |data| >= HEADER_SIZE && r.frame == FrameOf(data) && r.consumed == |data|
    ensures r.status.TrailingGarbage? ==>
      && HEADER_SIZE <= r.consumed < |data| && r.consumed == HEADER_SIZE + Load32(data[8..12])
      && r.frame == Frame(Load16(data[6..8]), data[HEADER_SIZE..r.consumed])
    ensures !r.status.DecodeOk? && !r.status.TrailingGarbage? ==> r.consumed == 0
  {
    var none := Frame(1, []);
    if |data| < HEADER_SIZE { return DecodeResult(Truncated, none, 0); }
    var magic := Load32(data[..4]);
    var version := Load16(data[4..6]);
    var kind := Load16(data[6..8]);
    var length := Load32(data[8..12]);
    var checksum := Load32(data[12..16]);
    if magic != MAGIC { return DecodeResult(BadMagic, none, 0); }
    if version != VERSION { return DecodeResult(BadVersion, none, 0); }
    if !ValidType(kind) { return DecodeResult(BadType, none, 0); }
    if length > MAX_PAYLOAD { return DecodeResult(Oversized, none, 0); }
    var total := HEADER_SIZE + length;
    if total > |data| { return DecodeResult(Truncated, none, 0); }
    var payload := data[HEADER_SIZE..total];
    var crc := ComputeCrc32(data[..12] + payload);
    if crc != checksum { return DecodeResult(BadChecksum, none, 0); }
    var frame := Frame(kind, payload);
    if total != |data| { return DecodeResult(TrailingGarbage, frame, total); }
    r := DecodeResult(DecodeOk, frame, total);
  }

  /** The frame inside an accepted buffer. */
  function FrameOf(data: seq<byte>): Frame
    requires |data| >= HEADER_SIZE
  {
    Frame(Load16(data[6..8]), data[HEADER_SIZE..])
  }

  lemma Slices(a: seq<byte>, b: seq<byte>, c: seq<byte>, d: seq<byte>, e: seq<byte>, p: seq<byte>)
    requires |a| == 4 && |b| == 2 && |c| == 2 && |d| == 4 && |e| == 4
    ensures var x := a + b + c + d + e + p;
      && |x| == 16 + |p| && x[..4] == a && x[4..6] == b && x[6..8] == c && x[8..12] == d
      && x[..12] == a + b + c + d && x[12..16] == e && x[16..] == p
  {}

  lemma Unslice(x: seq<byte>)
    requires |x| >= 16
    ensures x == x[..4] + x[4..6] + x[6..8] + x[8..12] + x[12..16] + x[16..]
    ensures x[..12] == x[..4] + x[4..6] + x[6..8] + x[8..12]
  {}

  /** Whatever the decoder accepts is the encoding of the frame it returns. */
  lemma AcceptedIsEncoding(data: seq<byte>)
    requires Verdict(data).DecodeOk?
    ensures Sendable(FrameOf(data))
    ensures data == FrameBytes(FrameOf(data), VERSION)
  {
    Unslice(data);
    assert data[HEADER_SIZE..|data|] == data[16..];
  }

  lemma FrameLayout(f: Frame)
    requires |f.payload| <= MAX_PAYLOAD
    ensures var d := FrameBytes(f, VERSION);
      && |d| == HEADER_SIZE + |f.payload|
      && d[..4] == U32Bytes(MAGIC) && d[4..6] == U16Bytes(VERSION) && d[6..8] == U16Bytes(f.kind)
      && d[8..12] == U32Bytes(|f.payload|) && d[..12] == Prefix(VERSION, f.kind, |f.payload|)
      && d[12..16] == U32Bytes(Crc32(d[..12] + f.payload)) && d[16..] == f.payload
  {
    var prefix := Prefix(VERSION, f.kind, |f.payload|);
    Slices(U32Bytes(MAGIC), U16Bytes(VERSION), U16Bytes(f.kind), U32Bytes(|f.payload|),
           U32Bytes(Crc32(prefix + f.payload)), f.payload);
  }

  /** Every sendable frame is accepted and comes back unchanged. */
  lemma EncodingIsAccepted(f: Frame)
    requires Sendable(f)
    ensures Verdict(FrameBytes(f, VERSION)).DecodeOk?
    ensures FrameOf(FrameBytes(f, VERSION)) == f
  {
    var d := FrameBytes(f, VERSION);
    FrameLayout(f);
    LoadU32(MAGIC);
    LoadU16(VERSION);
    LoadU16(f.kind);
    LoadU32(|f.payload|);
    LoadU32(Crc32(d[..12] + f.payload));
    assert d[HEADER_SIZE..|d|] == f.payload;
  }

  /** An oversized payload is dropped: sixteen bytes go out, announcing none and carrying no checksum. */
  lemma OversizedIsEmptied(f: Frame, version: u16)
    requires |f.payload| > 65536
    ensures |FrameBytes(f, version)| == 16
    ensures var d := FrameBytes(f, version); KindIn(d) == f.kind && LengthIn(d) == 0 && ChecksumIn(d) == 0
  {
    var d := FrameBytes(f, version);
    Slices(U32Bytes(MAGIC), U16Bytes(version), U16Bytes(f.kind), U32Bytes(0), [0, 0, 0, 0], []);
    assert d == U32Bytes(MAGIC) + U16Bytes(version) + U16Bytes(f.kind) + U32Bytes(0) + [0, 0, 0, 0] + [];
    LoadU16(f.kind);
    LoadU32(0);
    HeaderNumbers(d);
  }

  // ---- the verdicts, by the bytes ----

  /** The numbers in a header: type at 6, payload length at 8, checksum at 12, all with the high byte first. */
  function KindIn(d: seq<byte>): int
    requires |d| >= 16
  {
    Number16(d[6], d[7])
  }

  function LengthIn(d: seq<byte>): int
    requires |d| >= 16
  {
    Number32(d[8], d[9], d[10], d[11])
  }

  function ChecksumIn(d: seq<byte>): int
    requires |d| >= 16
  {
    Number32(d[12], d[13], d[14], d[15])
  }

  /** A complete header that announces a payload: CXLF, version 1, a type from 1 to 23, at most 65536 bytes. */
  predicate HeaderOk(d: seq<byte>) {
    && |d| >= 16 && d[0] == 0x43 && d[1] == 0x58 && d[2] == 0x4C && d[3] == 0x46 && d[4] == 0 && d[5] == 1
    && 1 <= KindIn(d) <= 23 && LengthIn(d) <= 65536
  }

  lemma HeaderNumbers(d: seq<byte>)
    requires |d| >= 16
    ensures Load32(d[..4]) == 0x4358_4C46 <==> d[0] == 0x43 && d[1] == 0x58 && d[2] == 0x4C && d[3] == 0x46
    ensures Load16(d[4..6]) == 1 <==> d[4] == 0 && d[5] == 1
    ensures Load16(d[6..8]) == KindIn(d) && Load32(d[8..12]) == LengthIn(d) && Load32(d[12..16]) == ChecksumIn(d)
  {
    Value32(d[..4]);
    Value16(d[4..6]);
    Value16(d[6..8]);
    Value32(d[8..12]);
    Value32(d[12..16]);
  }

  /** What each verdict on a whole header means. */
  lemma HeaderVerdicts(d: seq<byte>)
    requires |d| >= 16
    ensures var v := Verdict(d);
      var magic := d[0] == 0x43 && d[1] == 0x58 && d[2] == 0x4C && d[3] == 0x46;
      var version := d[4] == 0 && d[5] == 1;
      && (v.BadMagic? <==> !magic)
      && (v.BadVersion? <==> magic && !version)
      && (v.BadType? <==> magic && version && !(1 <= KindIn(d) <= 23))
      && (v.Oversized? <==> magic && version && 1 <= KindIn(d) <= 23 && LengthIn(d) > 65536)
      && (v.BadMagic? || v.BadVersion? || v.BadType? || v.Oversized? <==> !HeaderOk(d))
  {
    HeaderNumbers(d);
  }

  /** And what becomes of a buffer whose header is in order, or that is too short for one. */
  lemma PayloadVerdicts(d: seq<byte>)
    ensures |d| < 16 ==> Verdict(d).Truncated?
    ensures HeaderOk(d) ==>
      var v, end := Verdict(d), 16 + LengthIn(d);
      && (v.Truncated? <==> |d| < end)
      && (|d| >= end ==>
            var whole := Crc32(d[..12] + d[16..end]) == ChecksumIn(d);
            && (v.BadChecksum? <==> !whole)
            && (v.TrailingGarbage? <==> whole && |d| > end)
            && (v.DecodeOk? <==> whole && |d| == end))
  {
    if HeaderOk(d) { HeaderNumbers(d); }
  }

  /** The bytes the checksum covers: everything but the checksum itself. */
  function Covered(data: seq<byte>): seq<byte>
    requires |data| >= HEADER_SIZE
  {
    data[..12] + data[16..]
  }

  lemma ChangeShows(d: seq<byte>, i: nat, v: byte)
    requires |d| >= HEADER_SIZE && i < |d| && v != d[i]
    ensures 12 <= i < 16 ==>
      Covered(d[i := v]) == Covered(d) && d[i := v][12..16] != d[12..16]
    ensures !(12 <= i < 16) ==>
      var j := if i < 12 then i else i - 4;
      && j < |Covered(d)| && v != Covered(d)[j]
      && Covered(d[i := v]) == Covered(d)[j := v] && d[i := v][12..16] == d[12..16]
  {
    if 12 <= i < 16 {
      assert d[i := v][12..16][i - 12] == v && d[12..16][i - 12] == d[i];
    }
  }

  lemma AcceptedChecksum(data: seq<byte>)
    requires Verdict(data).DecodeOk?
    ensures |data| >= HEADER_SIZE && Crc32(Covered(data)) == Load32(data[12..16])
  {
    assert data[HEADER_SIZE..|data|] == data[16..];
  }

  /** One changed byte, anywhere in an encoded frame, is never accepted. */
  lemma CorruptFrameRejected(f: Frame, i: nat, v: byte)
    requires Sendable(f) && i < |FrameBytes(f, VERSION)| && v != FrameBytes(f, VERSION)[i]
    ensures !Verdict(FrameBytes(f, VERSION)[i := v]).DecodeOk?
  {
    var d := FrameBytes(f, VERSION);
    EncodingIsAccepted(f);
    AcceptedChecksum(d);
    ChangeShows(d, i, v);
    if Verdict(d[i := v]).DecodeOk? {
      AcceptedChecksum(d[i := v]);
      if !(12 <= i < 16) {
        CrcDetectsByteChange(Covered(d), if i < 12 then i else i - 4, v);
      }
    }
  }
}
