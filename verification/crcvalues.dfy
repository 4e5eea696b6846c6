/** The CRC pinned to its published definition: the generator polynomial and the check value. */
module CrcValues {
  import opened Base
  import opened Bits
  import opened Crc

  // ---- exclusive-or of numerals, one hexadecimal digit at a time ----

  type bit = n: int | 0 <= n < 2
  type digit = n: int | 0 <= n < 16

  function Differ(u: bit, v: bit): bit {
    if u == v then 0 else 1
  }

  /** c is a xor b. Stated over every equal number, so that Xor does not unfold on numerals. */
  ghost predicate Mixes(a: nat, b: nat, c: nat) {
    forall x: nat | x == a :: Xor(x, b) == c
  }

  lemma MixBit(a: nat, b: nat, c: nat, u: bit, v: bit, a1: nat, b1: nat, c1: nat)
    requires Mixes(a, b, c) && a1 == 2 * a + u && b1 == 2 * b + v && c1 == 2 * c + Differ(u, v)
    ensures Mixes(a1, b1, c1)
  {
    assert a1 / 2 == a && b1 / 2 == b && Xor(a, b) == c;
    XorBit(a1, b1);
  }

  lemma MixBits(a: nat, b: nat, c: nat, u3: bit, u2: bit, u1: bit, u0: bit, v3: bit, v2: bit, v1: bit, v0: bit,
                a1: nat, b1: nat, c1: nat)
    requires Mixes(a, b, c)
    requires a1 == 16 * a + 8 * u3 + 4 * u2 + 2 * u1 + u0 && b1 == 16 * b + 8 * v3 + 4 * v2 + 2 * v1 + v0
    requires c1 == 16 * c + 8 * Differ(u3, v3) + 4 * Differ(u2, v2) + 2 * Differ(u1, v1) + Differ(u0, v0)
    ensures Mixes(a1, b1, c1)
  {
    var aa, bb, cc := 2 * a + u3, 2 * b + v3, 2 * c + Differ(u3, v3);
    MixBit(a, b, c, u3, v3, aa, bb, cc);
    var aaa, bbb, ccc := 2 * aa + u2, 2 * bb + v2, 2 * cc + Differ(u2, v2);
    MixBit(aa, bb, cc, u2, v2, aaa, bbb, ccc);
    var a4, b4, c4 := 2 * aaa + u1, 2 * bbb + v1, 2 * ccc + Differ(u1, v1);
    MixBit(aaa, bbb, ccc, u1, v1, a4, b4, c4);
    MixBit(a4, b4, c4, u0, v0, a1, b1, c1);
  }

  // The bits of two digits from the top: no division, so that numerals evaluate by comparison.

  function LowXor(u: int, v: int): int {
    if (u >= 1) == (v >= 1) then 0 else 1
  }

  function PairXor(u: int, v: int): int {
    (if (u >= 2) == (v >= 2) then 0 else 2) + LowXor(Below(u, 2), Below(v, 2))
  }

  function TripleXor(u: int, v: int): int {
    (if (u >= 4) == (v >= 4) then 0 else 4) + PairXor(Below(u, 4), Below(v, 4))
  }

  function DigitXor(u: digit, v: digit): digit {
    (if (u >= 8) == (v >= 8) then 0 else 8) + TripleXor(Below(u, 8), Below(v, 8))
  }

  function Top(u: int, w: int): bit {
    if u >= w then 1 else 0
  }

  /** What is left of u below its bit of weight w. */
  function Below(u: int, w: int): int {
    if u >= w then u - w else u
  }

  lemma MixDigit(a: nat, b: nat, c: nat, u: digit, v: digit, a1: nat, b1: nat, c1: nat)
    requires Mixes(a, b, c) && a1 == 16 * a + u && b1 == 16 * b + v && c1 == 16 * c + DigitXor(u, v)
    ensures Mixes(a1, b1, c1)
  {
    var u3, v3: int := Below(u, 8), Below(v, 8);
    var u2, v2: int := Below(u3, 4), Below(v3, 4);
    MixBits(a, b, c, Top(u, 8), Top(u3, 4), Top(u2, 2), Below(u2, 2),
            Top(v, 8), Top(v3, 4), Top(v2, 2), Below(v2, 2), a1, b1, c1);
  }

  /** Eight hexadecimal digits, the least significant first. */
  function Word(d0: digit, d1: digit, d2: digit, d3: digit, d4: digit, d5: digit, d6: digit, d7: digit): nat {
    d0 + 0x10 * d1 + 0x100 * d2 + 0x1000 * d3 + 0x1_0000 * d4 + 0x10_0000 * d5 + 0x100_0000 * d6 + 0x1000_0000 * d7
  }

  /** The exclusive-or of two words, digit by digit. */
  lemma MixWords(
    a0: digit, a1: digit, a2: digit, a3: digit, a4: digit, a5: digit, a6: digit, a7: digit,
    b0: digit, b1: digit, b2: digit, b3: digit, b4: digit, b5: digit, b6: digit, b7: digit)
    ensures Mixes(
      Word(a0, a1, a2, a3, a4, a5, a6, a7), Word(b0, b1, b2, b3, b4, b5, b6, b7),
      Word(DigitXor(a0, b0), DigitXor(a1, b1), DigitXor(a2, b2), DigitXor(a3, b3),
           DigitXor(a4, b4), DigitXor(a5, b5), DigitXor(a6, b6), DigitXor(a7, b7)))
  {
    var x6, y6, z6 := 0x10 * a7 + a6, 0x10 * b7 + b6, 0x10 * DigitXor(a7, b7) + DigitXor(a6, b6);
    var x5, y5, z5 := 0x10 * x6 + a5, 0x10 * y6 + b5, 0x10 * z6 + DigitXor(a5, b5);
    var x4, y4, z4 := 0x10 * x5 + a4, 0x10 * y5 + b4, 0x10 * z5 + DigitXor(a4, b4);
    var x3, y3, z3 := 0x10 * x4 + a3, 0x10 * y4 + b3, 0x10 * z4 + DigitXor(a3, b3);
    var x2, y2, z2 := 0x10 * x3 + a2, 0x10 * y3 + b2, 0x10 * z3 + DigitXor(a2, b2);
    var x1, y1, z1 := 0x10 * x2 + a1, 0x10 * y2 + b1, 0x10 * z2 + DigitXor(a1, b1);
    MixDigit(0, 0, 0, a7, b7, a7, b7, DigitXor(a7, b7));
    MixDigit(a7, b7, DigitXor(a7, b7), a6, b6, x6, y6, z6);
    MixDigit(x6, y6, z6, a5, b5, x5, y5, z5);
    MixDigit(x5, y5, z5, a4, b4, x4, y4, z4);
    MixDigit(x4, y4, z4, a3, b3, x3, y3, z3);
    MixDigit(x3, y3, z3, a2, b2, x2, y2, z2);
    MixDigit(x2, y2, z2, a1, b1, x1, y1, z1);
    MixDigit(x1, y1, z1, a0, b0, Word(a0, a1, a2, a3, a4, a5, a6, a7), Word(b0, b1, b2, b3, b4, b5, b6, b7),
             Word(DigitXor(a0, b0), DigitXor(a1, b1), DigitXor(a2, b2), DigitXor(a3, b3),
                  DigitXor(a4, b4), DigitXor(a5, b5), DigitXor(a6, b6), DigitXor(a7, b7)));
  }

  // ---- one shift of the register ----

  /** n shifts take c to d, for the register of Crc. */
  ghost predicate Shifts(c: nat, n: nat, d: nat) {
    forall x: nat | x == c :: BitSteps(x, n) == d
  }

  lemma ShiftEven(c: nat, n: nat, m: nat, d: nat)
    requires Shifts(c, n, 2 * d) && m == n + 1
    ensures Shifts(c, m, d)
  {
    StepsThen(c, n, 2 * d);
    assert BitStep(2 * d) == d;
  }

  lemma {:induction false} StepsThen(c: nat, n: nat, d: nat)
    requires Shifts(c, n, d)
    ensures BitSteps(c, n + 1) == BitStep(d)
    decreases n
  {
    assert BitSteps(c, n) == d;
    if n > 0 { StepsThen(BitStep(c), n - 1, d); } else { assert BitSteps(c, 1) == BitSteps(BitStep(c), 0); }
  }

  /** An odd register: the generator, 0xEDB88320 by digits, is mixed in. */
  lemma ShiftOdd(
    c: nat, n: nat, m: nat, b0: digit, b1: digit, b2: digit, b3: digit, b4: digit, b5: digit, b6: digit, b7: digit)
    requires Shifts(c, n, 1 + 2 * Word(b0, b1, b2, b3, b4, b5, b6, b7)) && m == n + 1
    ensures Shifts(
      c, m, Word(DigitXor(0, b0), DigitXor(2, b1), DigitXor(3, b2), DigitXor(8, b3),
                 DigitXor(8, b4), DigitXor(11, b5), DigitXor(13, b6), DigitXor(14, b7)))
  {
    var h := Word(b0, b1, b2, b3, b4, b5, b6, b7);
    StepsThen(c, n, 1 + 2 * h);
    MixWords(0, 2, 3, 8, 8, 11, 13, 14, b0, b1, b2, b3, b4, b5, b6, b7);
    assert Word(0, 2, 3, 8, 8, 11, 13, 14) == POLY;
    assert (1 + 2 * h) % 2 == 1 && (1 + 2 * h) / 2 == h;
    assert BitStep(1 + 2 * h) == Xor(POLY, h);
  }

  // ---- the bytes of 123456789 ----

  lemma Digit1(c: nat)
    requires Shifts(c, 0, 0xFFFF_FFCE)
    ensures Shifts(c, 8, 0x7C23_1048)
  {
    ShiftEven(c, 0, 1, 0x7FFF_FFE7);
    ShiftOdd(c, 1, 2, 3, 15, 15, 15, 15, 15, 15, 3);
    ShiftOdd(c, 2, 3, 9, 6, 14, 11, 3, 2, 9, 6);
    ShiftOdd(c, 3, 4, 4, 10, 14, 9, 13, 4, 2, 4);
    ShiftEven(c, 4, 5, 0x57FA_8EC2);
    ShiftEven(c, 5, 6, 0x2BFD_4761);
    ShiftOdd(c, 6, 7, 0, 11, 3, 10, 14, 15, 5, 1);
    ShiftEven(c, 7, 8, 0x7C23_1048);
  }

  lemma Digit2(c: nat)
    requires Shifts(c, 0, 0x7C23_107A)
    ensures Shifts(c, 8, 0xB0AC_BB32)
  {
    ShiftEven(c, 0, 1, 0x3E11_883D);
    ShiftOdd(c, 1, 2, 14, 1, 4, 12, 8, 0, 15, 1);
    ShiftEven(c, 2, 3, 0x7958_239F);
    ShiftOdd(c, 3, 4, 15, 12, 1, 1, 12, 10, 12, 3);
    ShiftOdd(c, 4, 5, 7, 7, 9, 4, 10, 8, 8, 6);
    ShiftOdd(c, 5, 6, 11, 2, 5, 6, 9, 9, 2, 4);
    ShiftOdd(c, 6, 7, 5, 0, 3, 15, 0, 9, 7, 5);
    ShiftOdd(c, 7, 8, 2, 1, 8, 3, 4, 1, 13, 5);
  }

  lemma Digit3(c: nat)
    requires Shifts(c, 0, 0xB0AC_BB01)
    ensures Shifts(c, 8, 0x77B7_9C2D)
  {
    ShiftOdd(c, 0, 1, 0, 8, 13, 5, 6, 5, 8, 5);
    ShiftEven(c, 1, 2, 0x5AF7_6F50);
    ShiftEven(c, 2, 3, 0x2D7B_B7A8);
    ShiftEven(c, 3, 4, 0x16BD_DBD4);
    ShiftEven(c, 4, 5, 0x0B5E_EDEA);
    ShiftEven(c, 5, 6, 0x05AF_76F5);
    ShiftOdd(c, 6, 7, 10, 7, 11, 11, 7, 13, 2, 0);
    ShiftEven(c, 7, 8, 0x77B7_9C2D);
  }

  lemma Digit4(c: nat)
    requires Shifts(c, 0, 0x77B7_9C19)
    ensures Shifts(c, 8, 0x641C_1F5C)
  {
    ShiftOdd(c, 0, 1, 12, 0, 14, 12, 11, 13, 11, 3);
    ShiftEven(c, 1, 2, 0x6B31_A696);
    ShiftEven(c, 2, 3, 0x3598_D34B);
    ShiftOdd(c, 3, 4, 5, 10, 9, 6, 12, 12, 10, 1);
    ShiftOdd(c, 4, 5, 2, 4, 5, 7, 10, 11, 11, 7);
    ShiftEven(c, 5, 6, 0x4B01_7B31);
    ShiftOdd(c, 6, 7, 8, 9, 13, 11, 0, 8, 5, 2);
    ShiftEven(c, 7, 8, 0x641C_1F5C);
  }

  lemma Digit5(c: nat)
    requires Shifts(c, 0, 0x641C_1F69)
    ensures Shifts(c, 8, 0x340A_C5E3)
  {
    ShiftOdd(c, 0, 1, 4, 11, 15, 0, 14, 0, 2, 3);
    ShiftEven(c, 1, 2, 0x6FDB_464A);
    ShiftEven(c, 2, 3, 0x37ED_A325);
    ShiftOdd(c, 3, 4, 2, 9, 1, 13, 6, 15, 11, 1);
    ShiftEven(c, 4, 5, 0x7B27_2959);
    ShiftOdd(c, 5, 6, 12, 10, 4, 9, 3, 9, 13, 3);
    ShiftEven(c, 6, 7, 0x6815_8BC6);
    ShiftEven(c, 7, 8, 0x340A_C5E3);
  }

  lemma Digit6(c: nat)
    requires Shifts(c, 0, 0x340A_C5D5)
    ensures Shifts(c, 8, 0xF68D_2C9E)
  {
    ShiftOdd(c, 0, 1, 10, 14, 2, 6, 5, 0, 10, 1);
    ShiftEven(c, 1, 2, 0x7BDE_F0E5);
    ShiftOdd(c, 2, 3, 2, 7, 8, 7, 15, 14, 13, 3);
    ShiftEven(c, 3, 4, 0x682B_FDA9);
    ShiftOdd(c, 4, 5, 4, 13, 14, 15, 5, 1, 4, 3);
    ShiftEven(c, 5, 6, 0x6CD6_BEFA);
    ShiftEven(c, 6, 7, 0x366B_5F7D);
    ShiftOdd(c, 7, 8, 14, 11, 15, 10, 5, 3, 11, 1);
  }

  lemma Digit7(c: nat)
    requires Shifts(c, 0, 0xF68D_2CA9)
    ensures Shifts(c, 8, 0xAFFC_9660)
  {
    ShiftOdd(c, 0, 1, 4, 5, 6, 9, 6, 4, 11, 7);
    ShiftEven(c, 1, 2, 0x4B7F_0ABA);
    ShiftEven(c, 2, 3, 0x25BF_855D);
    ShiftOdd(c, 3, 4, 14, 10, 2, 12, 15, 13, 2, 1);
    ShiftEven(c, 4, 5, 0x7FB3_A0C7);
    ShiftOdd(c, 5, 6, 3, 6, 0, 13, 9, 13, 15, 3);
    ShiftOdd(c, 6, 7, 1, 10, 9, 10, 0, 3, 9, 6);
    ShiftOdd(c, 7, 8, 0, 4, 5, 1, 4, 4, 2, 4);
  }

  lemma Digit8(c: nat)
    requires Shifts(c, 0, 0xAFFC_9658)
    ensures Shifts(c, 8, 0x651F_2550)
  {
    ShiftEven(c, 0, 1, 0x57FE_4B2C);
    ShiftEven(c, 1, 2, 0x2BFF_2596);
    ShiftEven(c, 2, 3, 0x15FF_92CB);
    ShiftOdd(c, 3, 4, 5, 6, 9, 12, 15, 15, 10, 0);
    ShiftOdd(c, 4, 5, 2, 2, 5, 10, 3, 10, 3, 7);
    ShiftEven(c, 5, 6, 0x4F0D_9301);
    ShiftOdd(c, 6, 7, 0, 8, 9, 12, 6, 8, 7, 2);
    ShiftEven(c, 7, 8, 0x651F_2550);
  }

  lemma Digit9(c: nat)
    requires Shifts(c, 0, 0x651F_2569)
    ensures Shifts(c, 8, 0x340B_C6D9)
  {
    ShiftOdd(c, 0, 1, 4, 11, 2, 9, 15, 8, 2, 3);
    ShiftEven(c, 1, 2, 0x6F9B_88CA);
    ShiftEven(c, 2, 3, 0x37CD_C465);
    ShiftOdd(c, 3, 4, 2, 3, 2, 14, 6, 14, 11, 1);
    ShiftEven(c, 4, 5, 0x7B2F_3089);
    ShiftOdd(c, 5, 6, 4, 4, 8, 9, 7, 9, 13, 3);
    ShiftEven(c, 6, 7, 0x6817_8DB2);
    ShiftEven(c, 7, 8, 0x340B_C6D9);
  }

  /** The register after data is r. */
  ghost predicate Registers(data: seq<byte>, r: nat) {
    forall d: seq<byte> | d == data :: Register(d) == r
  }

  lemma NextByte(data: seq<byte>, r: nat, b: byte, c: nat, next: nat)
    requires Registers(data, r) && Mixes(r, b, c) && Shifts(c, 8, next)
    ensures Registers(data + [b], next)
  {
    assert (data + [b])[..|data|] == data;
    assert Register(data) == r && Xor(r, b) == c && BitSteps(c, 8) == next;
  }

  lemma NothingYet(c: nat)
    ensures Shifts(c, 0, c)
  {}

  lemma After1(data: seq<byte>)
    requires Registers(data, 0xFFFF_FFFF)
    ensures Registers(data + [49], 0x7C23_1048)
  {
    MixWords(15, 15, 15, 15, 15, 15, 15, 15, 1, 3, 0, 0, 0, 0, 0, 0);
    NothingYet(0xFFFF_FFCE);
    Digit1(0xFFFF_FFCE);
    NextByte(data, 0xFFFF_FFFF, 49, 0xFFFF_FFCE, 0x7C23_1048);
  }

  lemma After2(data: seq<byte>)
    requires Registers(data, 0x7C23_1048)
    ensures Registers(data + [50], 0xB0AC_BB32)
  {
    MixWords(8, 4, 0, 1, 3, 2, 12, 7, 2, 3, 0, 0, 0, 0, 0, 0);
    NothingYet(0x7C23_107A);
    Digit2(0x7C23_107A);
    NextByte(data, 0x7C23_1048, 50, 0x7C23_107A, 0xB0AC_BB32);
  }

  lemma After3(data: seq<byte>)
    requires Registers(data, 0xB0AC_BB32)
    ensures Registers(data + [51], 0x77B7_9C2D)
  {
    MixWords(2, 3, 11, 11, 12, 10, 0, 11, 3, 3, 0, 0, 0, 0, 0, 0);
    NothingYet(0xB0AC_BB01);
    Digit3(0xB0AC_BB01);
    NextByte(data, 0xB0AC_BB32, 51, 0xB0AC_BB01, 0x77B7_9C2D);
  }

  lemma After4(data: seq<byte>)
    requires Registers(data, 0x77B7_9C2D)
    ensures Registers(data + [52], 0x641C_1F5C)
  {
    MixWords(13, 2, 12, 9, 7, 11, 7, 7, 4, 3, 0, 0, 0, 0, 0, 0);
    NothingYet(0x77B7_9C19);
    Digit4(0x77B7_9C19);
    NextByte(data, 0x77B7_9C2D, 52, 0x77B7_9C19, 0x641C_1F5C);
  }

  lemma After5(data: seq<byte>)
    requires Registers(data, 0x641C_1F5C)
    ensures Registers(data + [53], 0x340A_C5E3)
  {
    MixWords(12, 5, 15, 1, 12, 1, 4, 6, 5, 3, 0, 0, 0, 0, 0, 0);
    NothingYet(0x641C_1F69);
    Digit5(0x641C_1F69);
    NextByte(data, 0x641C_1F5C, 53, 0x641C_1F69, 0x340A_C5E3);
  }

  lemma After6(data: seq<byte>)
    requires Registers(data, 0x340A_C5E3)
    ensures Registers(data + [54], 0xF68D_2C9E)
  {
    MixWords(3, 14, 5, 12, 10, 0, 4, 3, 6, 3, 0, 0, 0, 0, 0, 0);
    NothingYet(0x340A_C5D5);
    Digit6(0x340A_C5D5);
    NextByte(data, 0x340A_C5E3, 54, 0x340A_C5D5, 0xF68D_2C9E);
  }

  lemma After7(data: seq<byte>)
    requires Registers(data, 0xF68D_2C9E)
    ensures Registers(data + [55], 0xAFFC_9660)
  {
    MixWords(14, 9, 12, 2, 13, 8, 6, 15, 7, 3, 0, 0, 0, 0, 0, 0);
    NothingYet(0xF68D_2CA9);
    Digit7(0xF68D_2CA9);
    NextByte(data, 0xF68D_2C9E, 55, 0xF68D_2CA9, 0xAFFC_9660);
  }

  lemma After8(data: seq<byte>)
    requires Registers(data, 0xAFFC_9660)
    ensures Registers(data + [56], 0x651F_2550)
  {
    MixWords(0, 6, 6, 9, 12, 15, 15, 10, 8, 3, 0, 0, 0, 0, 0, 0);
    NothingYet(0xAFFC_9658);
    Digit8(0xAFFC_9658);
    NextByte(data, 0xAFFC_9660, 56, 0xAFFC_9658, 0x651F_2550);
  }

  lemma After9(data: seq<byte>)
    requires Registers(data, 0x651F_2550)
    ensures Registers(data + [57], 0x340B_C6D9)
  {
    MixWords(0, 5, 5, 2, 15, 1, 5, 6, 9, 3, 0, 0, 0, 0, 0, 0);
    NothingYet(0x651F_2569);
    Digit9(0x651F_2569);
    NextByte(data, 0x651F_2550, 57, 0x651F_2569, 0x340B_C6D9);
  }

  // ---- the published values ----

  /**
   * The generator x^32 + x^26 + x^23 + x^22 + x^16 + x^12 + x^11 + x^10 + x^8 + x^7 + x^5 + x^4 + x^2 + x + 1,
   * reflected: bit 31 - k is set exactly for the exponents k below 32.
   */
  lemma GeneratorBits(k: nat)
    requires k < 32
    ensures POLY / Pow2(31 - k) % 2 == 1 <==> k in {0, 1, 2, 4, 5, 7, 8, 10, 11, 12, 16, 22, 23, 26}
  {
    if k < 8 { TopBits(k); } else if k < 16 { NextBits(k); } else { LowBits(k); }
  }

  lemma TopBits(k: nat)
    requires k < 8
    ensures POLY / Pow2(31 - k) % 2 == 1 <==> k in {0, 1, 2, 4, 5, 7}
  {
    PowersUpTo31();
    assert POLY / 0x8000_0000 == 1 && POLY / 0x4000_0000 == 3 && POLY / 0x2000_0000 == 7 && POLY / 0x1000_0000 == 14;
    assert POLY / 0x800_0000 == 29 && POLY / 0x400_0000 == 59 && POLY / 0x200_0000 == 118 && POLY / 0x100_0000 == 237;
  }

  lemma NextBits(k: nat)
    requires 8 <= k < 16
    ensures POLY / Pow2(31 - k) % 2 == 1 <==> k in {8, 10, 11, 12}
  {
    PowersUpTo23();
    assert POLY / 0x80_0000 == 475 && POLY / 0x40_0000 == 950 && POLY / 0x20_0000 == 1901 && POLY / 0x10_0000 == 3803;
    assert POLY / 0x8_0000 == 7607 && POLY / 0x4_0000 == 15214 && POLY / 0x2_0000 == 30428 && POLY / 0x1_0000 == 60856;
  }

  lemma LowBits(k: nat)
    requires 16 <= k < 32
    ensures POLY / Pow2(31 - k) % 2 == 1 <==> k in {16, 22, 23, 26}
  {
    PowersUpTo15();
  }

  lemma PowersUpTo15()
    ensures Pow2(0) == 1 && Pow2(1) == 2 && Pow2(2) == 4 && Pow2(3) == 8 && Pow2(4) == 16 && Pow2(5) == 32
    ensures Pow2(6) == 64 && Pow2(7) == 128 && Pow2(8) == 0x100 && Pow2(9) == 0x200 && Pow2(10) == 0x400
    ensures Pow2(11) == 0x800 && Pow2(12) == 0x1000 && Pow2(13) == 0x2000 && Pow2(14) == 0x4000 && Pow2(15) == 0x8000
  {}

  lemma PowersUpTo23()
    ensures Pow2(16) == 0x1_0000 && Pow2(17) == 0x2_0000 && Pow2(18) == 0x4_0000 && Pow2(19) == 0x8_0000
    ensures Pow2(20) == 0x10_0000 && Pow2(21) == 0x20_0000 && Pow2(22) == 0x40_0000 && Pow2(23) == 0x80_0000
  {
    PowersUpTo15();
    assert Pow2(17) == 0x2_0000 && Pow2(19) == 0x8_0000 && Pow2(21) == 0x20_0000;
  }

  lemma PowersUpTo31()
    ensures Pow2(24) == 0x100_0000 && Pow2(25) == 0x200_0000 && Pow2(26) == 0x400_0000 && Pow2(27) == 0x800_0000
    ensures Pow2(28) == 0x1000_0000 && Pow2(29) == 0x2000_0000 && Pow2(30) == 0x4000_0000 && Pow2(31) == 0x8000_0000
  {
    PowersUpTo23();
    assert Pow2(25) == 0x200_0000 && Pow2(27) == 0x800_0000 && Pow2(29) == 0x2000_0000;
  }

  /** The check value: the CRC of the nine digits, which pins the initial and the final register as well. */
  lemma CheckValue()
    ensures Crc32([49, 50, 51, 52, 53, 54, 55, 56, 57]) == 0xCBF4_3926
  {
    assert Registers([], 0xFFFF_FFFF);
    After1([]);
    After2([] + [49]);
    After3([] + [49] + [50]);
    After4([] + [49] + [50] + [51]);
    After5([] + [49] + [50] + [51] + [52]);
    After6([] + [49] + [50] + [51] + [52] + [53]);
    After7([] + [49] + [50] + [51] + [52] + [53] + [54]);
    After8([] + [49] + [50] + [51] + [52] + [53] + [54] + [55]);
    After9([] + [49] + [50] + [51] + [52] + [53] + [54] + [55] + [56]);
    var data: seq<byte> := [49, 50, 51, 52, 53, 54, 55, 56, 57];
    assert data == [] + [49] + [50] + [51] + [52] + [53] + [54] + [55] + [56] + [57];
    MixWords(9, 13, 6, 12, 11, 0, 4, 3, 15, 15, 15, 15, 15, 15, 15, 15);
    Finished(data, 0x340B_C6D9, 0xCBF4_3926);
  }

  lemma Finished(data: seq<byte>, r: nat, crc: u32)
    requires Registers(data, r) && Mixes(r, 0xFFFF_FFFF, crc)
    ensures Crc32(data) == crc
  {
    assert Register(data) == r;
    assert Xor(r, ALL_ONES) == crc;
  }
}
