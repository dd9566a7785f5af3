/**
 * The 128-bit SSE/SSSE3 operations the SSSE3 encoder uses, on a register
 * seen as 16 bytes in memory order (byte 0 is the least significant).
 * 16-bit lanes are little-endian byte pairs.
 */
module Sse {

  /** An XMM register (__m128i). */
  type M128 = s: seq<bv8> | |s| == 16 witness seq(16, _ => 0)

  /**
   * _mm_set_epi8: arguments from byte 15 down to byte 0.  A C `char`
   * argument is written here as the byte it stores (-4 is 0xFC).
   */
  function SetEpi8(e15: bv8, e14: bv8, e13: bv8, e12: bv8, e11: bv8, e10: bv8, e9: bv8, e8: bv8,
                   e7: bv8, e6: bv8, e5: bv8, e4: bv8, e3: bv8, e2: bv8, e1: bv8, e0: bv8): M128
  {
    [e0, e1, e2, e3, e4, e5, e6, e7, e8, e9, e10, e11, e12, e13, e14, e15]
  }

  /** _mm_setr_epi8: arguments from byte 0 up to byte 15. */
  function SetrEpi8(e0: bv8, e1: bv8, e2: bv8, e3: bv8, e4: bv8, e5: bv8, e6: bv8, e7: bv8,
                    e8: bv8, e9: bv8, e10: bv8, e11: bv8, e12: bv8, e13: bv8, e14: bv8, e15: bv8): M128
  {
    [e0, e1, e2, e3, e4, e5, e6, e7, e8, e9, e10, e11, e12, e13, e14, e15]
  }

  /** _mm_set1_epi8: the byte in all 16 positions. */
  function Set1Epi8(x: bv8): M128
  {
    seq(16, _ => x)
  }

  /** _mm_set1_epi32: the 32-bit word, little-endian, in all four lanes. */
  function Set1Epi32(x: bv32): M128
  {
    seq(16, i requires 0 <= i < 16 => ByteOf32(x, i % 4))
  }

  /** Byte n (0 least significant) of a 32-bit value. */
  function ByteOf32(x: bv32, n: nat): bv8
  {
    if n == 0 then (x & 0xFF) as bv8
    else if n == 1 then ((x >> 8) & 0xFF) as bv8
    else if n == 2 then ((x >> 16) & 0xFF) as bv8
    else (x >> 24) as bv8
  }

  /** The number held in the low four bits of a byte. */
  function Nibble(b: bv8): (n: nat)
    ensures n < 16
  {
    (if b & 8 != 0 then 8 else 0) + (if b & 4 != 0 then 4 else 0)
      + (if b & 2 != 0 then 2 else 0) + (if b & 1 != 0 then 1 else 0)
  }

  /** pshufb: byte i is table[idx[i] & 15], or zero when bit 7 of idx[i] is set. */
  function Pshufb(table: M128, idx: M128): M128
  {
    seq(16, i requires 0 <= i < 16 => if idx[i] & 0x80 != 0 then 0 else table[Nibble(idx[i])])
  }

  /** pand */
  function Pand(x: M128, y: M128): M128
  {
    seq(16, i requires 0 <= i < 16 => x[i] & y[i])
  }

  /** por */
  function Por(x: M128, y: M128): M128
  {
    seq(16, i requires 0 <= i < 16 => x[i] | y[i])
  }

  /** paddb: bytewise addition modulo 256. */
  function Paddb(x: M128, y: M128): M128
  {
    seq(16, i requires 0 <= i < 16 => x[i] + y[i])
  }

  /** psubb: bytewise subtraction modulo 256. */
  function Psubb(x: M128, y: M128): M128
  {
    seq(16, i requires 0 <= i < 16 => x[i] - y[i])
  }

  /** psubusb: bytewise unsigned subtraction, saturating at zero. */
  function Psubusb(x: M128, y: M128): M128
  {
    seq(16, i requires 0 <= i < 16 => if x[i] >= y[i] then x[i] - y[i] else 0)
  }

  /** A byte read as a signed (two's complement) value. */
  function Signed(x: bv8): int
  {
    if x < 0x80 then x as int else x as int - 256
  }

  /**
   * x > y as two's complement bytes.  Flipping the sign bit maps -128..127
   * in order onto 0..255, so the test is an unsigned one on the flipped bytes.
   */
  predicate SignedGreater(x: bv8, y: bv8)
  {
    (x ^ 0x80) > (y ^ 0x80)
  }

  /** The sign-bit test agrees with the comparison of the values the bytes stand for. */
  lemma SignedGreaterIsSignedOrder(x: bv8, y: bv8)
    ensures SignedGreater(x, y) <==> Signed(x) > Signed(y)
  {
  }

  /** pcmpgtb: 0xFF where x > y as signed bytes, 0 elsewhere. */
  function Pcmpgtb(x: M128, y: M128): M128
  {
    seq(16, i requires 0 <= i < 16 => if SignedGreater(x[i], y[i]) then 0xFF else 0)
  }

  /** 16-bit lane k, little-endian. */
  function Word(x: M128, k: nat): bv16
    requires k < 8
  {
    (x[2 * k] as bv16) | ((x[2 * k + 1] as bv16) << 8)
  }

  /** Byte `half` (0 low, 1 high) of a 16-bit value. */
  function ByteOf(w: bv16, half: nat): bv8
  {
    if half == 0 then (w & 0xFF) as bv8 else (w >> 8) as bv8
  }

  /** The high 16 bits of the unsigned 32-bit product of two 16-bit values. */
  function MulHi(x: bv16, y: bv16): bv16
  {
    (((x as bv32) * (y as bv32)) >> 16) as bv16
  }

  /** pmulhuw: per 16-bit lane, the high half of the unsigned product. */
  function Pmulhuw(x: M128, y: M128): M128
  {
    seq(16, i requires 0 <= i < 16 => ByteOf(MulHi(Word(x, i / 2), Word(y, i / 2)), i % 2))
  }

  /** The low 16 bits of the product of two 16-bit values. */
  function MulLo(x: bv16, y: bv16): bv16
  {
    x * y
  }

  /** pmullw: per 16-bit lane, the low half of the product. */
  function Pmullw(x: M128, y: M128): M128
  {
    seq(16, i requires 0 <= i < 16 => ByteOf(MulLo(Word(x, i / 2), Word(y, i / 2)), i % 2))
  }

  // Element access, one lemma per operation, so that proofs about a lane
  // need not unfold the whole register.

  lemma PandAt(x: M128, y: M128, i: nat)
    requires i < 16
    ensures Pand(x, y)[i] == x[i] & y[i]
  {
  }

  lemma PorAt(x: M128, y: M128, i: nat)
    requires i < 16
    ensures Por(x, y)[i] == x[i] | y[i]
  {
  }

  lemma PmulhuwAt(x: M128, y: M128, k: nat)
    requires k < 8
    ensures Pmulhuw(x, y)[2 * k] == ByteOf(MulHi(Word(x, k), Word(y, k)), 0)
    ensures Pmulhuw(x, y)[2 * k + 1] == ByteOf(MulHi(Word(x, k), Word(y, k)), 1)
  {
    assert (2 * k) / 2 == k && (2 * k) % 2 == 0 && (2 * k + 1) / 2 == k && (2 * k + 1) % 2 == 1;
  }

  lemma PmullwAt(x: M128, y: M128, k: nat)
    requires k < 8
    ensures Pmullw(x, y)[2 * k] == ByteOf(MulLo(Word(x, k), Word(y, k)), 0)
    ensures Pmullw(x, y)[2 * k + 1] == ByteOf(MulLo(Word(x, k), Word(y, k)), 1)
  {
    assert (2 * k) / 2 == k && (2 * k) % 2 == 0 && (2 * k + 1) / 2 == k && (2 * k + 1) % 2 == 1;
  }

  lemma Set1Epi32At(x: bv32, i: nat)
    requires i < 16
    ensures Set1Epi32(x)[i] == ByteOf32(x, i % 4)
  {
  }

  /** A pshufb index below 16 selects that byte of the table. */
  lemma PshufbAt(table: M128, idx: M128, i: nat)
    requires i < 16 && idx[i] < 16
    ensures Pshufb(table, idx)[i] == table[Nibble(idx[i])]
  {
    assert idx[i] & 0x80 == 0;
  }

  lemma PaddbAt(x: M128, y: M128, i: nat)
    requires i < 16
    ensures Paddb(x, y)[i] == x[i] + y[i]
  {
  }

  lemma PsubbAt(x: M128, y: M128, i: nat)
    requires i < 16
    ensures Psubb(x, y)[i] == x[i] - y[i]
  {
  }

  lemma PsubusbAt(x: M128, y: M128, i: nat)
    requires i < 16
    ensures Psubusb(x, y)[i] == if x[i] >= y[i] then x[i] - y[i] else 0
  {
  }

  lemma PcmpgtbAt(x: M128, y: M128, i: nat)
    requires i < 16
    ensures Pcmpgtb(x, y)[i] == if SignedGreater(x[i], y[i]) then 0xFF else 0
  {
  }

  lemma Set1Epi8At(x: bv8, i: nat)
    requires i < 16
    ensures Set1Epi8(x)[i] == x
  {
  }
}
