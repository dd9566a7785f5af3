/**
 * The AVX2 entry points of lib/arch/avx2/codec.c: without BASE64_HAVE_AVX2
 * the two stubs, with it the shared head and tail around the AVX2 loops.
 */
module Avx2Codec {
  import opened Wrappers
  import opened Config
  import opened Codecs

  /** What is left of base64_stream_encode_avx2 in a build. */
  function Avx2EncodeBody(b: Build): Body<EncLoop>
  {
    if b.haveAvx2 then Framed(Some(EncLoopAvx2)) else Stub
  }

  /** What is left of base64_stream_decode_avx2 in a build. */
  function Avx2DecodeBody(b: Build): Body<DecLoop>
  {
    if b.haveAvx2 then Framed(Some(DecLoopAvx2)) else Stub
  }

  /** base64_stream_encode_avx2 */
  method StreamEncodeAvx2<S>(c: Call<S>, f: Framing<S>, b: Build, src: seq<bv8>)
    modifies c
    ensures c.Snapshot() == EncodeOutcome(Avx2EncodeBody(b), f, old(c.Snapshot()), src)
  {
    if b.haveAvx2 {
      FramedEncode(c, f, Some(EncLoopAvx2), src);
    } else {
      EncStub(c, src);
    }
  }

  /** base64_stream_decode_avx2 */
  method StreamDecodeAvx2<S>(c: Call<S>, f: Framing<S>, b: Build, src: seq<bv8>) returns (ret: int)
    modifies c
    ensures (c.Snapshot(), ret) == DecodeOutcome(Avx2DecodeBody(b), f, old(c.Snapshot()), src)
  {
    if b.haveAvx2 {
      ret := FramedDecode(c, f, Some(DecLoopAvx2), src);
    } else {
      ret := DecStub(c, src);
    }
  }

  /**
   * BASE64_AVX2_USE_ASM (a value predefined by the build, else set on GCC
   * or Clang with 64-bit words) only decides whether enc_loop_avx2 comes
   * from the inline-assembly file or the intrinsics file.  It is invisible
   * at the entry points: with any compiler, word size and predefined value
   * the entry point calls the same enc_loop_avx2 between the same fragments.
   */
  lemma Avx2AsmChoiceInvisible(b: Build, useAsm: Option<bool>, gnuOrClang: bool, wordSize: nat)
    ensures var b' := b.(avx2UseAsm := useAsm, gnuOrClang := gnuOrClang, wordSize := wordSize);
      Avx2EncodeBody(b') == Avx2EncodeBody(b) && Avx2DecodeBody(b') == Avx2DecodeBody(b)
  {
  }
}
