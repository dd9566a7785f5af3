/**
 * The Base64 encoding of RFC 4648, section 4, for whole 24-bit groups:
 * three bytes form a 24-bit big-endian group, which splits into four
 * 6-bit fields, most significant first, each mapped through the Base64
 * alphabet (RFC 4648, section 4, Table 1).  Output symbols are ASCII bytes.
 * Padding concerns only a final partial group and is not needed here.
 */
module Rfc4648 {

  /** Table 1 of RFC 4648: 0-25 'A'-'Z', 26-51 'a'-'z', 52-61 '0'-'9', 62 '+', 63 '/'. */
  function Symbol(v: bv8): bv8
    requires v < 64
  {
    if v < 26 then 65 + v              // 'A' + v
    else if v < 52 then 97 + (v - 26)  // 'a' + (v - 26)
    else if v < 62 then 48 + (v - 52)  // '0' + (v - 52)
    else if v == 62 then 43            // '+'
    else 47                            // '/'
  }

  /** The 24-bit group a b c split into four 6-bit fields, most significant first. */
  function Sextets(a: bv8, b: bv8, c: bv8): (r: seq<bv8>)
    ensures |r| == 4 && forall k | 0 <= k < 4 :: r[k] < 64
  {
    var n: bv32 := ((a as bv32) << 16) | ((b as bv32) << 8) | (c as bv32);
    [((n >> 18) & 63) as bv8, ((n >> 12) & 63) as bv8, ((n >> 6) & 63) as bv8, (n & 63) as bv8]
  }

  /** The four symbols of one group. */
  function EncodeGroup(a: bv8, b: bv8, c: bv8): (r: seq<bv8>)
    ensures |r| == 4
  {
    var f := Sextets(a, b, c);
    [Symbol(f[0]), Symbol(f[1]), Symbol(f[2]), Symbol(f[3])]
  }

  /** The Base64 encoding of a whole number of groups. */
  function Encode(data: seq<bv8>): (r: seq<bv8>)
    requires |data| % 3 == 0
    ensures 3 * |r| == 4 * |data|
  {
    if data == [] then []
    else EncodeGroup(data[0], data[1], data[2]) + Encode(data[3..])
  }

  /** Encoding respects group-aligned concatenation. */
  lemma {:induction false} EncodeAppend(x: seq<bv8>, y: seq<bv8>)
    requires |x| % 3 == 0 && |y| % 3 == 0
    ensures Encode(x + y) == Encode(x) + Encode(y)
  {
    if x != [] {
      assert (x + y)[3..] == x[3..] + y;
      EncodeAppend(x[3..], y);
    } else {
      assert x + y == y;
    }
  }

  /** Four groups encode to their four symbol quadruples, in order. */
  lemma EncodeFourGroups(x: seq<bv8>)
    requires |x| == 12
    ensures Encode(x) == EncodeGroup(x[0], x[1], x[2]) + (EncodeGroup(x[3], x[4], x[5])
                       + (EncodeGroup(x[6], x[7], x[8]) + EncodeGroup(x[9], x[10], x[11])))
  {
    var w := x[9..];
    assert w[0] == x[9] && w[1] == x[10] && w[2] == x[11] && w[3..] == [];
    EncodeFirst(w);
    var e3 := Encode(w);
    assert e3 == EncodeGroup(x[9], x[10], x[11]);
    var z := x[6..];
    assert z[0] == x[6] && z[1] == x[7] && z[2] == x[8] && z[3..] == w;
    EncodeFirst(z);
    var e2 := Encode(z);
    assert e2 == EncodeGroup(x[6], x[7], x[8]) + e3;
    var y := x[3..];
    assert y[0] == x[3] && y[1] == x[4] && y[2] == x[5] && y[3..] == z;
    EncodeFirst(y);
    var e1 := Encode(y);
    assert e1 == EncodeGroup(x[3], x[4], x[5]) + e2;
    assert x[3..] == y;
    EncodeFirst(x);
  }

  /** The first group's symbols, then the rest. */
  lemma EncodeFirst(x: seq<bv8>)
    requires |x| % 3 == 0 && |x| > 0
    ensures Encode(x) == EncodeGroup(x[0], x[1], x[2]) + Encode(x[3..])
  {
  }
}
