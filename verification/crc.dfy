/** Bitwise exclusive-or on non-negative integers, with the algebra a CRC needs. */
module Bits {

  function Pow2(n: nat): (p: nat)
    ensures p >= 1
  {
    if n == 0 then 1 else 2 * Pow2(n - 1)
  }

  function Xor(a: nat, b: nat): nat
    decreases a + b
  {
    if a == 0 && b == 0 then 0
    else if a % 2 == b % 2 then 2 * Xor(a / 2, b / 2)
    else 1 + 2 * Xor(a / 2, b / 2)
  }

  lemma XorBit(a: nat, b: nat)
    ensures Xor(a, b) % 2 == (if a % 2 == b % 2 then 0 else 1)
    ensures Xor(a, b) / 2 == Xor(a / 2, b / 2)
  {
    var t := Xor(a / 2, b / 2);
    assert 2 * t / 2 == t && 2 * t % 2 == 0;
    assert (1 + 2 * t) / 2 == t && (1 + 2 * t) % 2 == 1;
  }

  lemma SameHalves(x: nat, y: nat)
    requires x / 2 == y / 2 && x % 2 == y % 2
    ensures x == y
  {}

  lemma {:induction false} XorZero(a: nat)
    ensures Xor(a, 0) == a && Xor(0, a) == a
  {
    if a != 0 { XorZero(a / 2); }
  }

  lemma {:induction false} XorCommutes(a: nat, b: nat)
    ensures Xor(a, b) == Xor(b, a)
    decreases a + b
  {
    if a + b != 0 { XorCommutes(a / 2, b / 2); }
  }

  lemma {:induction false} XorAssoc(a: nat, b: nat, c: nat)
    ensures Xor(Xor(a, b), c) == Xor(a, Xor(b, c))
    decreases a + b + c
  {
    if a + b + c != 0 {
      XorAssoc(a / 2, b / 2, c / 2);
      XorBit(a, b);
      XorBit(b, c);
      XorBit(Xor(a, b), c);
      XorBit(a, Xor(b, c));
      SameHalves(Xor(Xor(a, b), c), Xor(a, Xor(b, c)));
    }
  }

  lemma {:induction false} XorSelf(a: nat)
    ensures Xor(a, a) == 0
  {
    if a != 0 { XorSelf(a / 2); }
  }

  lemma XorCancel(a: nat, b: nat, p: nat)
    requires Xor(a, p) == Xor(b, p)
    ensures a == b
  {
    XorAssoc(a, p, p);
    XorAssoc(b, p, p);
    XorSelf(p);
    XorZero(a);
    XorZero(b);
  }

  /** Moving a common word through a xor of two sums. */
  lemma XorPull(p: nat, a: nat, b: nat)
    ensures Xor(Xor(p, a), b) == Xor(p, Xor(a, b))
    ensures Xor(a, Xor(p, b)) == Xor(p, Xor(a, b))
    ensures Xor(Xor(p, a), Xor(p, b)) == Xor(a, b)
  {
    XorAssoc(p, a, b);
    XorAssoc(a, p, b);
    XorCommutes(a, p);
    XorAssoc(p, a, Xor(p, b));
    XorAssoc(p, p, Xor(a, b));
    XorSelf(p);
    XorZero(Xor(a, b));
  }

  /** Logical right shift by n places. */
  function Shr(a: nat, n: nat): nat
    decreases n
  {
    if n == 0 then a else Shr(a / 2, n - 1)
  }

  lemma {:induction false} XorShr(a: nat, b: nat, n: nat)
    ensures Shr(Xor(a, b), n) == Xor(Shr(a, n), Shr(b, n))
    decreases n
  {
    if n != 0 {
      XorBit(a, b);
      XorShr(a / 2, b / 2, n - 1);
    }
  }

  lemma {:induction false} ShrIsZero(a: nat, n: nat)
    ensures Shr(a, n) == 0 <==> a < Pow2(n)
    decreases n
  {
    if n != 0 { ShrIsZero(a / 2, n - 1); }
  }

  lemma ShrNibble(a: nat, n: nat)
    ensures Shr(a, n + 4) == Shr(a / 16, n)
  {
    assert Shr(a, n + 4) == Shr(a / 2, n + 3) == Shr(a / 2 / 2, n + 2) == Shr(a / 2 / 2 / 2, n + 1);
    assert a / 2 / 2 / 2 / 2 == a / 16;
  }

  lemma ShrByte(a: nat, n: nat)
    requires n == 8
    ensures Shr(a, n) == a / 256
  {
    ShrNibble(a, n - 4);
    ShrNibble(a / 16, n - 8);
    assert a / 16 / 16 == a / 256;
  }

  predicate LowClear(x: nat, n: nat)
    decreases n
  {
    n == 0 || (x % 2 == 0 && LowClear(x / 2, n - 1))
  }

  lemma {:induction false} XorDisjoint(lo: nat, high: nat, n: nat)
    requires LowClear(high, n) && Shr(lo, n) == 0
    ensures Xor(lo, high) == lo + high
    decreases n
  {
    if n == 0 {
      XorZero(high);
    } else {
      XorDisjoint(lo / 2, high / 2, n - 1);
      XorBit(lo, high);
      SameHalves(Xor(lo, high), lo + high);
    }
  }

  /** The low n bits of x. */
  function Low(x: nat, n: nat): nat
    decreases n
  {
    if n == 0 then 0 else x % 2 + 2 * Low(x / 2, n - 1)
  }

  lemma {:induction false} SplitLow(x: nat, n: nat)
    ensures Low(x, n) <= x && LowClear(x - Low(x, n), n)
    ensures Shr(Low(x, n), n) == 0 && Shr(x - Low(x, n), n) == Shr(x, n)
    decreases n
  {
    if n != 0 {
      var rest := Low(x / 2, n - 1);
      SplitLow(x / 2, n - 1);
      assert Low(x, n) / 2 == rest;
      assert (x - Low(x, n)) / 2 == x / 2 - rest && (x - Low(x, n)) % 2 == 0;
    }
  }

  lemma LowStep(x: nat, n: nat)
    ensures Low(x, n + 1) == x % 2 + 2 * Low(x / 2, n)
  {}

  lemma LowNibble(x: nat, n: nat)
    ensures Low(x, n + 4) == x % 16 + 16 * Low(x / 16, n)
  {
    LowStep(x, n + 3);
    LowStep(x / 2, n + 2);
    LowStep(x / 2 / 2, n + 1);
    LowStep(x / 2 / 2 / 2, n);
    assert x / 2 / 2 / 2 / 2 == x / 16;
  }

  lemma TwoNibbles(x: nat)
    ensures x % 16 + 16 * (x / 16 % 16) == x % 256
  {
    var p, s, r := x / 16 / 16, x / 16 % 16, x % 16;
    assert x / 16 == 16 * p + s;
    assert x == 16 * (16 * p + s) + r;
    assert x == 256 * p + (16 * s + r) && 0 <= 16 * s + r < 256;
  }

  lemma LowByte(x: nat, n: nat)
    requires n == 8
    ensures Low(x, n) == x % 256
  {
    LowNibble(x, n - 4);
    LowNibble(x / 16, n - 8);
    TwoNibbles(x);
  }

  lemma Pow2Values()
    ensures Pow2(8) == 256 && Pow2(31) == 0x8000_0000 && Pow2(32) == 0x1_0000_0000
  {
    assert Pow2(4) == 16;
    assert Pow2(8) == 256;
    assert Pow2(12) == 4096;
    assert Pow2(16) == 65536;
    assert Pow2(20) == 0x10_0000;
    assert Pow2(24) == 0x100_0000;
    assert Pow2(28) == 0x1000_0000;
  }

  lemma XorIsWord(a: nat, b: nat)
    requires a < 0x1_0000_0000 && b < 0x1_0000_0000
    ensures Xor(a, b) < 0x1_0000_0000
  {
    Pow2Values();
    XorShr(a, b, 32);
    ShrIsZero(a, 32);
    ShrIsZero(b, 32);
    ShrIsZero(Xor(a, b), 32);
  }
}

/** CRC-32 as the table-driven loop computes it, and as section 8 of RFC 1952 defines it. */
module Crc {
  import opened Base
  import opened Bits

  const BYTE_BITS: nat := 8
  const POLY: nat := 0xEDB88320
  const ALL_ONES: nat := 0xFFFFFFFF

  /** One shift of the reflected register. */
  function BitStep(c: nat): nat {
    if c % 2 == 1 then Xor(POLY, c / 2) else c / 2
  }

  function BitSteps(c: nat, n: nat): nat
    decreases n
  {
    if n == 0 then c else BitSteps(BitStep(c), n - 1)
  }

  /** The register after one message byte, one bit at a time. */
  function ByteStep(c: nat, b: byte): nat {
    BitSteps(Xor(c, b), BYTE_BITS)
  }

  function Register(data: seq<byte>): nat {
    if data == [] then ALL_ONES
    else ByteStep(Register(data[..|data| - 1]), data[|data| - 1])
  }

  function Crc32(data: seq<byte>): u32 {
    RegisterIsWord(data);
    XorIsWord(Register(data), ALL_ONES);
    Xor(Register(data), ALL_ONES)
  }

  lemma {:induction false} BitStepsIsWord(c: nat, n: nat)
    requires c <= U32_MAX
    ensures BitSteps(c, n) <= U32_MAX
    decreases n
  {
    if n != 0 {
      XorIsWord(POLY, c / 2);
      BitStepsIsWord(BitStep(c), n - 1);
    }
  }

  lemma {:induction false} RegisterIsWord(data: seq<byte>)
    ensures Register(data) <= U32_MAX
  {
    if data != [] {
      var init, last := data[..|data| - 1], data[|data| - 1];
      RegisterIsWord(init);
      XorIsWord(Register(init), last);
      BitStepsIsWord(Xor(Register(init), last), BYTE_BITS);
    }
  }

  // ---- linearity: the byte table refines the shift register ----

  lemma BitStepLinear(x: nat, y: nat)
    ensures BitStep(Xor(x, y)) == Xor(BitStep(x), BitStep(y))
  {
    XorBit(x, y);
    XorPull(POLY, x / 2, y / 2);
  }

  lemma {:induction false} BitStepsLinear(x: nat, y: nat, n: nat)
    ensures BitSteps(Xor(x, y), n) == Xor(BitSteps(x, n), BitSteps(y, n))
    decreases n
  {
    if n != 0 {
      BitStepLinear(x, y);
      BitStepsLinear(BitStep(x), BitStep(y), n - 1);
    }
  }

  /** With clear low bits no polynomial is mixed in: n steps are a plain shift. */
  lemma {:induction false} HighBitsShift(x: nat, n: nat)
    requires LowClear(x, n)
    ensures BitSteps(x, n) == Shr(x, n)
    decreases n
  {
    if n != 0 { HighBitsShift(x / 2, n - 1); }
  }

  lemma SplitSteps(x: nat, n: nat)
    ensures BitSteps(x, n) == Xor(BitSteps(Low(x, n), n), Shr(x, n))
  {
    SplitLow(x, n);
    StepsOfParts(Low(x, n), x - Low(x, n), n);
  }

  lemma StepsOfParts(lo: nat, high: nat, n: nat)
    requires LowClear(high, n) && Shr(lo, n) == 0
    ensures BitSteps(lo + high, n) == Xor(BitSteps(lo, n), Shr(high, n))
  {
    XorDisjoint(lo, high, n);
    BitStepsLinear(lo, high, n);
    HighBitsShift(high, n);
  }

  lemma HighBytesKept(c: nat, b: byte)
    ensures Xor(c, b) / 256 == c / 256
  {
    XorShr(c, b, BYTE_BITS);
    ShrByte(Xor(c, b), BYTE_BITS);
    ShrByte(c, BYTE_BITS);
    ShrByte(b, BYTE_BITS);
    XorZero(c / 256);
  }

  /** One table lookup is eight shifts. */
  lemma TableStepRefinesBits(c: nat, b: byte)
    ensures Xor(BitSteps(Xor(c, b) % 256, BYTE_BITS), c / 256) == ByteStep(c, b)
  {
    SplitSteps(Xor(c, b), BYTE_BITS);
    LowByte(Xor(c, b), BYTE_BITS);
    ShrByte(Xor(c, b), BYTE_BITS);
    HighBytesKept(c, b);
  }

  method BuildTable() returns (table: array<nat>)
    ensures fresh(table) && table.Length == 256
    ensures forall j | 0 <= j < 256 :: table[j] == BitSteps(j, BYTE_BITS)
  {
    table := new nat[256];
    var i := 0;
    while i < 256
      invariant 0 <= i <= 256
      invariant forall j | 0 <= j < i :: table[j] == BitSteps(j, BYTE_BITS)
    {
      var c: nat := i;
      var k := 0;
      while k < BYTE_BITS
        invariant 0 <= k <= BYTE_BITS
        invariant BitSteps(c, BYTE_BITS - k) == BitSteps(i, BYTE_BITS)
      {
        c := if c % 2 == 1 then Xor(POLY, c / 2) else c / 2;
        k := k + 1;
      }
      table[i] := c;
      i := i + 1;
    }
  }

  method TableStep(table: array<nat>, reg: nat, b: byte) returns (next: nat)
    requires table.Length == 256
    requires forall j | 0 <= j < 256 :: table[j] == BitSteps(j, BYTE_BITS)
    ensures next == ByteStep(reg, b)
  {
    TableStepRefinesBits(reg, b);
    next := Xor(table[Xor(reg, b) % 256], reg / 256);
  }

  /** The table-driven loop computes the bit-serial CRC of every byte sequence. */
  method ComputeCrc32(data: seq<byte>) returns (crc: u32)
    ensures crc == Crc32(data)
  {
    var table := BuildTable();
    var reg: nat := ALL_ONES;
    var n := 0;
    while n < |data|
      invariant 0 <= n <= |data|
      invariant forall j | 0 <= j < 256 :: table[j] == BitSteps(j, BYTE_BITS)
      invariant reg == Register(data[..n])
    {
      reg := TableStep(table, reg, data[n]);
      assert data[..n + 1][..n] == data[..n];
      RegisterLast(data[..n + 1]);
      n := n + 1;
    }
    assert data[..n] == data;
    RegisterIsWord(data);
    XorIsWord(reg, ALL_ONES);
    crc := Xor(reg, ALL_ONES);
  }

  // ---- injectivity: one changed byte always changes the checksum ----

  /** The polynomial's top bit tells which branch was taken. */
  lemma MixedInHasTopBit(c: nat)
    requires c <= U32_MAX
    ensures Xor(POLY, c / 2) >= 0x8000_0000
  {
    Pow2Values();
    ShrIsZero(POLY, 31);
    ShrIsZero(c / 2, 31);
    XorShr(POLY, c / 2, 31);
    XorZero(Shr(POLY, 31));
    ShrIsZero(Xor(POLY, c / 2), 31);
  }

  lemma BitStepInjective(x: nat, y: nat)
    requires x <= U32_MAX && y <= U32_MAX
    requires BitStep(x) == BitStep(y)
    ensures x == y
  {
    MixedInHasTopBit(x);
    MixedInHasTopBit(y);
    if x % 2 == 1 && y % 2 == 1 {
      XorCommutes(POLY, x / 2);
      XorCommutes(POLY, y / 2);
      XorCancel(x / 2, y / 2, POLY);
    }
  }

  lemma {:induction false} BitStepsInjective(x: nat, y: nat, n: nat)
    requires x <= U32_MAX && y <= U32_MAX
    requires BitSteps(x, n) == BitSteps(y, n)
    ensures x == y
    decreases n
  {
    if n != 0 {
      XorIsWord(POLY, x / 2);
      XorIsWord(POLY, y / 2);
      BitStepsInjective(BitStep(x), BitStep(y), n - 1);
      BitStepInjective(x, y);
    }
  }

  /** Registers that agree after a byte differ in both the old register and the byte, or in neither. */
  lemma ByteStepInjective(c: nat, d: nat, a: byte, b: byte)
    requires c <= U32_MAX && d <= U32_MAX
    requires ByteStep(c, a) == ByteStep(d, b)
    ensures c == d <==> a == b
  {
    XorIsWord(c, a);
    XorIsWord(d, b);
    BitStepsInjective(Xor(c, a), Xor(d, b), BYTE_BITS);
    if c == d {
      XorCommutes(c, a);
      XorCommutes(d, b);
      XorCancel(a, b, c);
    }
    if a == b { XorCancel(c, d, a); }
  }

  lemma RegisterLast(data: seq<byte>)
    requires data != []
    ensures Register(data) == ByteStep(Register(data[..|data| - 1]), data[|data| - 1])
  {}

  lemma {:induction false} RegisterDetects(data: seq<byte>, bad: seq<byte>, i: nat)
    requires i < |data| && |bad| == |data|
    requires forall j | 0 <= j < |data| :: data[j] == bad[j] <==> j != i
    ensures Register(bad) != Register(data)
    decreases |data|
  {
    var n := |data| - 1;
    var init, badInit := data[..n], bad[..n];
    RegisterIsWord(init);
    RegisterIsWord(badInit);
    RegisterLast(data);
    RegisterLast(bad);
    if i == n {
      assert badInit == init;
    } else {
      RegisterDetects(init, badInit, i);
    }
    if Register(bad) == Register(data) {
      ByteStepInjective(Register(badInit), Register(init), bad[n], data[n]);
    }
  }

  /** Changing any one byte of any message changes its CRC-32. */
  lemma CrcDetectsByteChange(data: seq<byte>, i: nat, v: byte)
    requires i < |data| && v != data[i]
    ensures Crc32(data[i := v]) != Crc32(data)
  {
    RegisterDetects(data, data[i := v], i);
    if Crc32(data[i := v]) == Crc32(data) {
      XorCancel(Register(data[i := v]), Register(data), ALL_ONES);
    }
  }
}
