/**
 * The AVX512 entry points of lib/arch/avx512/codec.c: without
 * BASE64_HAVE_AVX512 the two stubs; with it the shared head and tail around
 * the AVX512 encode loop, and around the AVX2 decode loop, which this file
 * compiles in itself.
 */
module Avx512Codec {
  import opened Wrappers
  import opened Config
  import opened Codecs

  /** What is left of base64_stream_encode_avx512 in a build. */
  function Avx512EncodeBody(b: Build): Body<EncLoop>
  {
    if b.haveAvx512 then Framed(Some(EncLoopAvx512)) else Stub
  }

  /** What is left of base64_stream_decode_avx512 in a build: the AVX2 decode loop, framed. */
  function Avx512DecodeBody(b: Build): Body<DecLoop>
  {
    if b.haveAvx512 then Framed(Some(DecLoopAvx2)) else Stub
  }

  /** base64_stream_encode_avx512 */
  method StreamEncodeAvx512<S>(c: Call<S>, f: Framing<S>, b: Build, src: seq<bv8>)
    modifies c
    ensures c.Snapshot() == EncodeOutcome(Avx512EncodeBody(b), f, old(c.Snapshot()), src)
  {
    if b.haveAvx512 {
      FramedEncode(c, f, Some(EncLoopAvx512), src);
    } else {
      EncStub(c, src);
    }
  }

  /** base64_stream_decode_avx512 */
  method StreamDecodeAvx512<S>(c: Call<S>, f: Framing<S>, b: Build, src: seq<bv8>) returns (ret: int)
    modifies c
    ensures (c.Snapshot(), ret) == DecodeOutcome(Avx512DecodeBody(b), f, old(c.Snapshot()), src)
  {
    if b.haveAvx512 {
      ret := FramedDecode(c, f, Some(DecLoopAvx2), src);
    } else {
      ret := DecStub(c, src);
    }
  }
}
