/**
 * The data operations of one SSSE3 encoder round (the SHUF and TRAN macros
 * of lib/arch/ssse3/enc_loop_asm.c and the constant registers they use):
 * 12 input bytes of a 16-byte load become 16 Base64 symbols.
 */
module Ssse3Lanes {
  import opened Sse
  import opened Rfc4648

  // The constant registers of the asm statement.
  const Lut0: M128 := SetEpi8(10, 11, 9, 10, 7, 8, 6, 7, 4, 5, 3, 4, 1, 2, 0, 1)
  const Lut1: M128 := SetrEpi8(65, 71, -4, -4, -4, -4, -4, -4, -4, -4, -4, -4, -19, -16, 0, 0)
  const Msk0: M128 := Set1Epi32(0x0FC0FC00)
  const Msk1: M128 := Set1Epi32(0x04000040)
  const Msk2: M128 := Set1Epi32(0x003F03F0)
  const Msk3: M128 := Set1Epi32(0x01000010)
  const N51: M128 := Set1Epi8(51)
  const N25: M128 := Set1Epi8(25)

  /** BASE64_SSSE3_SHUF: spread each 3-byte group over a 32-bit lane as four 6-bit values. */
  function Shuf(r0: M128): M128
  {
    var r0 := Pshufb(r0, Lut0);
    var r1 := r0;
    var r0 := Pand(r0, Msk0);
    var r1 := Pand(r1, Msk2);
    var r0 := Pmulhuw(r0, Msk1);
    var r1 := Pmullw(r1, Msk3);
    Por(r0, r1)
  }

  /** BASE64_SSSE3_TRAN: add to each 6-bit value the offset of its alphabet range. */
  function Tran(r0: M128): M128
  {
    var r1 := Psubusb(r0, N51);
    var r2 := Pcmpgtb(r0, N25);
    var r1 := Psubb(r1, r2);
    var r2 := Pshufb(Lut1, r1);
    Paddb(r0, r2)
  }

  /** One encoder round on a 16-byte load: shuffle, then translate. */
  function EncodeBlock(block: M128): M128
  {
    Tran(Shuf(block))
  }

  /**
   * The data operations of one round, as the asm runs them on a loaded
   * register: BASE64_SSSE3_SHUF, then BASE64_SSSE3_TRAN.  The result is the
   * Base64 encoding of the first 12 bytes of the load.
   */
  method ShufTran(a: M128) returns (r: M128)
    ensures r == Encode(a[..12])
  {
    r := Shuf(a);
    r := Tran(r);
    EncodeBlockIsBase64(a);
  }

  /**
   * The round is the Base64 encoding of the first 12 bytes of its load;
   * the last four bytes of the load do not reach the output.
   */
  lemma EncodeBlockIsBase64(v: M128)
    ensures EncodeBlock(v) == Encode(v[..12])
  {
    var g0, g1 := EncodeGroup(v[0], v[1], v[2]), EncodeGroup(v[3], v[4], v[5]);
    var g2, g3 := EncodeGroup(v[6], v[7], v[8]), EncodeGroup(v[9], v[10], v[11]);
    BlockLane(v, 0);
    BlockLane(v, 1);
    BlockLane(v, 2);
    BlockLane(v, 3);
    Concat4(EncodeBlock(v), g0, g1, g2, g3);
    EncodeFourGroups(v[..12]);
  }

  /** Lane j of a round is the encoding of group j of its load. */
  lemma BlockLane(v: M128, j: nat)
    requires j < 4
    ensures EncodeBlock(v)[4 * j..4 * j + 4] == EncodeGroup(v[3 * j], v[3 * j + 1], v[3 * j + 2])
  {
    ShufLane(v, j);
    TranLane(Shuf(v), j, v[3 * j], v[3 * j + 1], v[3 * j + 2]);
  }

  /** TRAN maps a lane holding four fields to their four symbols. */
  lemma TranLane(u: M128, j: nat, a: bv8, b: bv8, c: bv8)
    requires j < 4 && u[4 * j..4 * j + 4] == Sextets(a, b, c)
    ensures Tran(u)[4 * j..4 * j + 4] == EncodeGroup(a, b, c)
  {
    var f := Sextets(a, b, c);
    SliceAt(u, 4 * j, 0, f);
    SliceAt(u, 4 * j, 1, f);
    SliceAt(u, 4 * j, 2, f);
    SliceAt(u, 4 * j, 3, f);
    TranByte(u, 4 * j);
    TranByte(u, 4 * j + 1);
    TranByte(u, 4 * j + 2);
    TranByte(u, 4 * j + 3);
    Quad(Tran(u), 4 * j, EncodeGroup(a, b, c));
  }

  lemma SliceAt(u: seq<bv8>, at: nat, m: nat, f: seq<bv8>)
    requires at + 4 <= |u| && m < 4 && u[at..at + 4] == f
    ensures u[at + m] == f[m]
  {
    assert u[at..at + 4][m] == u[at + m];
  }

  /** Sixteen bytes given four at a time. */
  lemma Concat4(u: seq<bv8>, g0: seq<bv8>, g1: seq<bv8>, g2: seq<bv8>, g3: seq<bv8>)
    requires |u| == 16
    requires u[0..4] == g0 && u[4..8] == g1 && u[8..12] == g2 && u[12..16] == g3
    ensures u == g0 + (g1 + (g2 + g3))
  {
    assert u == u[0..4] + (u[4..8] + (u[8..12] + u[12..16]));
  }


  // ---------------------------------------------------------------------
  // TRAN, byte by byte.

  /** Each 6-bit value becomes its symbol of the Base64 alphabet. */
  lemma TranByte(v: M128, i: nat)
    requires i < 16 && v[i] < 64
    ensures Tran(v)[i] == Symbol(v[i])
  {
    var x := v[i];
    var r1 := Psubusb(v, N51);
    var r2 := Pcmpgtb(v, N25);
    var idx := Psubb(r1, r2);
    Set1Epi8At(51, i);
    Set1Epi8At(25, i);
    PsubusbAt(v, N51, i);
    PcmpgtbAt(v, N25, i);
    PsubbAt(r1, r2, i);
    var k := TranIndex(x);
    assert idx[i] == k;
    PshufbAt(Lut1, idx, i);
    PaddbAt(v, Pshufb(Lut1, idx), i);
    TranOffset(x, k);
  }

  /** The lut1 index TRAN computes: 0 for 'A'-'Z', 1 for 'a'-'z', v - 50 above. */
  function TranIndex(x: bv8): (k: bv8)
    requires x < 64
    ensures k == if x < 26 then 0 else if x < 52 then 1 else x - 50
  {
    (if x >= 51 then x - 51 else 0) - (if SignedGreater(x, 25) then 0xFF else 0)
  }

  /** Adding lut1 at that index gives the symbol. */
  lemma TranOffset(x: bv8, k: bv8)
    requires x < 64 && k == TranIndex(x)
    ensures k < 16 && x + Lut1[Nibble(k)] == Symbol(x)
  {
    assert Lut1 == [65, 71, 252, 252, 252, 252, 252, 252, 252, 252, 252, 252, 237, 240, 0, 0];
    if x < 26 {
      assert k == 0;
    } else if x < 52 {
      assert k == 1;
    } else if x < 62 {
      assert 2 <= k < 12;
      assert Lut1[Nibble(k)] == 252;
    } else if x == 62 {
      assert k == 12;
    } else {
      assert k == 13;
    }
  }

  // ---------------------------------------------------------------------
  // SHUF, lane by lane.

  /** Lane j of SHUF holds the four 6-bit fields of input bytes 3j, 3j+1, 3j+2. */
  lemma ShufLane(v: M128, j: nat)
    requires j < 4
    ensures Shuf(v)[4 * j..4 * j + 4] == Sextets(v[3 * j], v[3 * j + 1], v[3 * j + 2])
  {
    var p := Pshufb(v, Lut0);
    assert Shuf(v) == Por(Pmulhuw(Pand(p, Msk0), Msk1), Pmullw(Pand(p, Msk2), Msk3));
    ShufflePicks(v, j);
    SpreadLane(p, j, v[3 * j], v[3 * j + 1], v[3 * j + 2]);
  }

  /** The masks and multiplies turn a lane holding b a c b into the fields of a b c. */
  lemma SpreadLane(p: M128, j: nat, a: bv8, b: bv8, c: bv8)
    requires j < 4
    requires p[4 * j] == b && p[4 * j + 1] == a && p[4 * j + 2] == c && p[4 * j + 3] == b
    ensures Por(Pmulhuw(Pand(p, Msk0), Msk1), Pmullw(Pand(p, Msk2), Msk3))[4 * j..4 * j + 4] == Sextets(a, b, c)
  {
    var lo, hi := (b as bv16) | ((a as bv16) << 8), (c as bv16) | ((b as bv16) << 8);
    SpreadWordLow(p, j, a, b);
    SpreadWordHigh(p, j, b, c);
    LaneFields(Por(Pmulhuw(Pand(p, Msk0), Msk1), Pmullw(Pand(p, Msk2), Msk3)), j, lo, hi, a, b, c);
  }

  /** The low 16-bit half of lane j after the masks and multiplies. */
  lemma SpreadWordLow(p: M128, j: nat, a: bv8, b: bv8)
    requires j < 4 && p[4 * j] == b && p[4 * j + 1] == a
    ensures var lo := (b as bv16) | ((a as bv16) << 8);
      Word(Por(Pmulhuw(Pand(p, Msk0), Msk1), Pmullw(Pand(p, Msk2), Msk3)), 2 * j)
        == MulHi(lo & 0xFC00, 0x0040) | MulLo(lo & 0x03F0, 0x0010)
  {
    WordOfPair(p, 2 * j, b, a);
    ShufWordEven(p, 2 * j, (b as bv16) | ((a as bv16) << 8));
  }

  /** The high 16-bit half of lane j after the masks and multiplies. */
  lemma SpreadWordHigh(p: M128, j: nat, b: bv8, c: bv8)
    requires j < 4 && p[4 * j + 2] == c && p[4 * j + 3] == b
    ensures var hi := (c as bv16) | ((b as bv16) << 8);
      Word(Por(Pmulhuw(Pand(p, Msk0), Msk1), Pmullw(Pand(p, Msk2), Msk3)), 2 * j + 1)
        == MulHi(hi & 0x0FC0, 0x0400) | MulLo(hi & 0x003F, 0x0100)
  {
    WordOfPair(p, 2 * j + 1, c, b);
    ShufWordOdd(p, 2 * j + 1, (c as bv16) | ((b as bv16) << 8));
  }

  /** A 16-bit lane made of two known bytes. */
  lemma WordOfPair(p: M128, k: nat, lo: bv8, hi: bv8)
    requires k < 8 && p[2 * k] == lo && p[2 * k + 1] == hi
    ensures Word(p, k) == (lo as bv16) | ((hi as bv16) << 8)
  {
  }

  /** Lane j whose halves are the masked products of (b | a << 8) and (c | b << 8) holds the four fields. */
  lemma LaneFields(r: M128, j: nat, lo: bv16, hi: bv16, a: bv8, b: bv8, c: bv8)
    requires j < 4
    requires lo == (b as bv16) | ((a as bv16) << 8) && hi == (c as bv16) | ((b as bv16) << 8)
    requires Word(r, 2 * j) == MulHi(lo & 0xFC00, 0x0040) | MulLo(lo & 0x03F0, 0x0010)
    requires Word(r, 2 * j + 1) == MulHi(hi & 0x0FC0, 0x0400) | MulLo(hi & 0x003F, 0x0100)
    ensures r[4 * j..4 * j + 4] == Sextets(a, b, c)
  {
    var s := Sextets(a, b, c);
    assert 2 * (2 * j) == 4 * j && 2 * (2 * j + 1) == 4 * j + 2;
    SpreadLow(r, 2 * j, lo, a, b, c);
    SpreadHigh(r, 2 * j + 1, hi, a, b, c);
    Quad(r, 4 * j, s);
  }

  /** An even 16-bit lane computed from (b | a << 8) holds the first two fields. */
  lemma SpreadLow(r: M128, k: nat, w: bv16, a: bv8, b: bv8, c: bv8)
    requires k < 8 && w == (b as bv16) | ((a as bv16) << 8)
    requires Word(r, k) == MulHi(w & 0xFC00, 0x0040) | MulLo(w & 0x03F0, 0x0010)
    ensures r[2 * k] == Sextets(a, b, c)[0] && r[2 * k + 1] == Sextets(a, b, c)[1]
  {
    var s := Sextets(a, b, c);
    FieldsLow(w, a, b, c);
    WordBytes(r, k, s[0], s[1]);
  }

  /** An odd 16-bit lane computed from (c | b << 8) holds the last two fields. */
  lemma SpreadHigh(r: M128, k: nat, w: bv16, a: bv8, b: bv8, c: bv8)
    requires k < 8 && w == (c as bv16) | ((b as bv16) << 8)
    requires Word(r, k) == MulHi(w & 0x0FC0, 0x0400) | MulLo(w & 0x003F, 0x0100)
    ensures r[2 * k] == Sextets(a, b, c)[2] && r[2 * k + 1] == Sextets(a, b, c)[3]
  {
    var s := Sextets(a, b, c);
    FieldsHigh(w, a, b, c);
    WordBytes(r, k, s[2], s[3]);
  }

  lemma Quad(r: seq<bv8>, i: nat, s: seq<bv8>)
    requires i + 4 <= |r| && |s| == 4
    requires r[i] == s[0] && r[i + 1] == s[1] && r[i + 2] == s[2] && r[i + 3] == s[3]
    ensures r[i..i + 4] == s
  {
  }

  /** An even 16-bit lane of SHUF after the byte shuffle: masked, shifted by the two multiplies, recombined. */
  lemma ShufWordEven(p: M128, k: nat, w: bv16)
    requires k < 8 && k % 2 == 0 && Word(p, k) == w
    ensures Word(Por(Pmulhuw(Pand(p, Msk0), Msk1), Pmullw(Pand(p, Msk2), Msk3)), k) ==
      MulHi(w & 0xFC00, 0x0040) | MulLo(w & 0x03F0, 0x0010)
  {
    LanePipeline(p, Msk0, Msk1, Msk2, Msk3, k);
    MaskWords(k);
  }

  /** An odd 16-bit lane of SHUF after the byte shuffle. */
  lemma ShufWordOdd(p: M128, k: nat, w: bv16)
    requires k < 8 && k % 2 == 1 && Word(p, k) == w
    ensures Word(Por(Pmulhuw(Pand(p, Msk0), Msk1), Pmullw(Pand(p, Msk2), Msk3)), k) ==
      MulHi(w & 0x0FC0, 0x0400) | MulLo(w & 0x003F, 0x0100)
  {
    LanePipeline(p, Msk0, Msk1, Msk2, Msk3, k);
    MaskWords(k);
  }

  /** The 16-bit lanes of the four SHUF masks: one set for even lanes, one for odd. */
  lemma MaskWords(k: nat)
    requires k < 8
    ensures k % 2 == 0 ==> Word(Msk0, k) == 0xFC00 && Word(Msk1, k) == 0x0040 && Word(Msk2, k) == 0x03F0 && Word(Msk3, k) == 0x0010
    ensures k % 2 == 1 ==> Word(Msk0, k) == 0x0FC0 && Word(Msk1, k) == 0x0400 && Word(Msk2, k) == 0x003F && Word(Msk3, k) == 0x0100
  {
    Set1Epi32Word(0x0FC0FC00, k);
    Set1Epi32Word(0x04000040, k);
    Set1Epi32Word(0x003F03F0, k);
    Set1Epi32Word(0x01000010, k);
  }

  /** The masks and multiplies of SHUF, on one 16-bit lane. */
  lemma LanePipeline(p: M128, n0: M128, n1: M128, n2: M128, n3: M128, k: nat)
    requires k < 8
    ensures Word(Por(Pmulhuw(Pand(p, n0), n1), Pmullw(Pand(p, n2), n3)), k)
         == MulHi(Word(p, k) & Word(n0, k), Word(n1, k)) | MulLo(Word(p, k) & Word(n2, k), Word(n3, k))
  {
    var a, b := Pand(p, n0), Pand(p, n2);
    WordOr(Pmulhuw(a, n1), Pmullw(b, n3), k);
    WordMulHi(a, n1, k);
    WordMulLo(b, n3, k);
    WordAnd(p, n0, k);
    WordAnd(p, n2, k);
  }

  /** The byte permutation of lut0: lane j holds bytes 3j+1, 3j, 3j+2, 3j+1 of the input. */
  lemma ShufflePicks(v: M128, j: nat)
    requires j < 4
    ensures Pshufb(v, Lut0)[4 * j] == v[3 * j + 1]
    ensures Pshufb(v, Lut0)[4 * j + 1] == v[3 * j]
    ensures Pshufb(v, Lut0)[4 * j + 2] == v[3 * j + 2]
    ensures Pshufb(v, Lut0)[4 * j + 3] == v[3 * j + 1]
  {
    assert Lut0 == [1, 0, 2, 1, 4, 3, 5, 4, 7, 6, 8, 7, 10, 9, 11, 10];
    PshufbAt(v, Lut0, 4 * j);
    PshufbAt(v, Lut0, 4 * j + 1);
    PshufbAt(v, Lut0, 4 * j + 2);
    PshufbAt(v, Lut0, 4 * j + 3);
  }

  /** The low half of a lane, (b | a << 8), masked and multiplied, holds fields 0 and 1. */
  lemma FieldsLow(lo: bv16, a: bv8, b: bv8, c: bv8)
    requires lo == (b as bv16) | ((a as bv16) << 8)
    ensures var s := Sextets(a, b, c);
      (MulHi(lo & 0xFC00, 0x0040) | MulLo(lo & 0x03F0, 0x0010)) == (s[0] as bv16) | ((s[1] as bv16) << 8)
  {
  }

  /** The high half of a lane, (c | b << 8), masked and multiplied, holds fields 2 and 3. */
  lemma FieldsHigh(hi: bv16, a: bv8, b: bv8, c: bv8)
    requires hi == (c as bv16) | ((b as bv16) << 8)
    ensures var s := Sextets(a, b, c);
      (MulHi(hi & 0x0FC0, 0x0400) | MulLo(hi & 0x003F, 0x0100)) == (s[2] as bv16) | ((s[3] as bv16) << 8)
  {
  }

  // ---------------------------------------------------------------------
  // Moving between bytes and 16-bit lanes.

  lemma WordAnd(x: M128, y: M128, k: nat)
    requires k < 8
    ensures Word(Pand(x, y), k) == Word(x, k) & Word(y, k)
  {
    PandAt(x, y, 2 * k);
    PandAt(x, y, 2 * k + 1);
    AndOfPairs(x[2 * k], x[2 * k + 1], y[2 * k], y[2 * k + 1]);
  }

  lemma WordOr(x: M128, y: M128, k: nat)
    requires k < 8
    ensures Word(Por(x, y), k) == Word(x, k) | Word(y, k)
  {
    PorAt(x, y, 2 * k);
    PorAt(x, y, 2 * k + 1);
    OrOfPairs(x[2 * k], x[2 * k + 1], y[2 * k], y[2 * k + 1]);
  }

  lemma WordMulHi(x: M128, y: M128, k: nat)
    requires k < 8
    ensures Word(Pmulhuw(x, y), k) == MulHi(Word(x, k), Word(y, k))
  {
    PmulhuwAt(x, y, k);
    WordOfBytes(MulHi(Word(x, k), Word(y, k)));
  }

  lemma WordMulLo(x: M128, y: M128, k: nat)
    requires k < 8
    ensures Word(Pmullw(x, y), k) == MulLo(Word(x, k), Word(y, k))
  {
    PmullwAt(x, y, k);
    WordOfBytes(MulLo(Word(x, k), Word(y, k)));
  }

  /** A lane with a known value has known bytes. */
  lemma WordBytes(x: M128, k: nat, lo: bv8, hi: bv8)
    requires k < 8 && Word(x, k) == (lo as bv16) | ((hi as bv16) << 8)
    ensures x[2 * k] == lo && x[2 * k + 1] == hi
  {
    PairBytes(x[2 * k], x[2 * k + 1], lo, hi);
  }

  lemma PairBytes(x0: bv8, x1: bv8, y0: bv8, y1: bv8)
    requires (x0 as bv16) | ((x1 as bv16) << 8) == (y0 as bv16) | ((y1 as bv16) << 8)
    ensures x0 == y0 && x1 == y1
  {
    assert x0 == (((x0 as bv16) | ((x1 as bv16) << 8)) & 0xFF) as bv8;
    assert x1 == (((x0 as bv16) | ((x1 as bv16) << 8)) >> 8) as bv8;
  }

  lemma AndOfPairs(a0: bv8, a1: bv8, b0: bv8, b1: bv8)
    ensures ((a0 & b0) as bv16) | (((a1 & b1) as bv16) << 8)
         == ((a0 as bv16) | ((a1 as bv16) << 8)) & ((b0 as bv16) | ((b1 as bv16) << 8))
  {
  }

  lemma OrOfPairs(a0: bv8, a1: bv8, b0: bv8, b1: bv8)
    ensures ((a0 | b0) as bv16) | (((a1 | b1) as bv16) << 8)
         == ((a0 as bv16) | ((a1 as bv16) << 8)) | ((b0 as bv16) | ((b1 as bv16) << 8))
  {
  }

  lemma WordOfBytes(w: bv16)
    ensures (ByteOf(w, 0) as bv16) | ((ByteOf(w, 1) as bv16) << 8) == w
  {
  }

  /** The 16-bit lanes of a broadcast 32-bit constant: low half in even lanes, high half in odd. */
  lemma Set1Epi32Word(x: bv32, k: nat)
    requires k < 8
    ensures Word(Set1Epi32(x), k) == if k % 2 == 0 then (x & 0xFFFF) as bv16 else (x >> 16) as bv16
  {
    if k % 2 == 0 {
      assert (2 * k) % 4 == 0 && (2 * k + 1) % 4 == 1;
      Set1Epi32Pair(x, k, 0);
      HalfOf32(x, 0);
    } else {
      assert (2 * k) % 4 == 2 && (2 * k + 1) % 4 == 3;
      Set1Epi32Pair(x, k, 1);
      HalfOf32(x, 1);
    }
  }

  /** A 16-bit lane of a broadcast 32-bit constant is a pair of its bytes. */
  lemma Set1Epi32Pair(x: bv32, k: nat, h: nat)
    requires k < 8 && h < 2 && (2 * k) % 4 == 2 * h && (2 * k + 1) % 4 == 2 * h + 1
    ensures Word(Set1Epi32(x), k) == (ByteOf32(x, 2 * h) as bv16) | ((ByteOf32(x, 2 * h + 1) as bv16) << 8)
  {
    var v := Set1Epi32(x);
    assert v[2 * k] == ByteOf32(x, 2 * h) by {
      Set1Epi32At(x, 2 * k);
    }
    assert v[2 * k + 1] == ByteOf32(x, 2 * h + 1) by {
      Set1Epi32At(x, 2 * k + 1);
    }
    WordOfPair(v, k, ByteOf32(x, 2 * h), ByteOf32(x, 2 * h + 1));
  }

  lemma HalfOf32(x: bv32, h: nat)
    requires h < 2
    ensures (ByteOf32(x, 2 * h) as bv16) | ((ByteOf32(x, 2 * h + 1) as bv16) << 8)
         == if h == 0 then (x & 0xFFFF) as bv16 else (x >> 16) as bv16
  {
    if h == 0 {
      LowHalf32(x);
    } else {
      HighHalf32(x);
    }
  }

  lemma LowHalf32(x: bv32)
    ensures (ByteOf32(x, 0) as bv16) | ((ByteOf32(x, 1) as bv16) << 8) == (x & 0xFFFF) as bv16
  {
  }

  lemma HighHalf32(x: bv32)
    ensures (ByteOf32(x, 2) as bv16) | ((ByteOf32(x, 3) as bv16) << 8) == (x >> 16) as bv16
  {
  }
}
