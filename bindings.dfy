/**
 * The entry points a binding can hold, tier by tier, and what the choice
 * of codec_choose.c means for them.  Only the plain, AVX2 and AVX512
 * entry points are part of this model; the SSSE3, SSE4.1, SSE4.2, AVX and
 * NEON codec files are not.
 */
module Bindings {
  import opened Wrappers
  import opened Config
  import opened Codecs
  import opened CodecChoose
  import opened GenericCodec
  import opened Avx2Codec
  import opened Avx512Codec

  /** The tiers whose entry points this model has. */
  predicate Modelled(t: Tier)
  {
    t == Plain || t == Avx2 || t == Avx512
  }

  /** The encoder entry point of a tier, as the build leaves it. */
  function EncodeBody(t: Tier, b: Build): Body<EncLoop>
    requires Modelled(t)
  {
    if t == Plain then PlainEncodeBody(b)
    else if t == Avx2 then Avx2EncodeBody(b)
    else Avx512EncodeBody(b)
  }

  /** The decoder entry point of a tier, as the build leaves it. */
  function DecodeBody(t: Tier, b: Build): Body<DecLoop>
    requires Modelled(t)
  {
    if t == Plain then PlainDecodeBody(b)
    else if t == Avx2 then Avx2DecodeBody(b)
    else Avx512DecodeBody(b)
  }

  /** Both entry points of the tier run the shared fragments around a loop: neither is a stub. */
  predicate Functional(t: Tier, b: Build)
    requires Modelled(t)
  {
    EncodeBody(t, b).Framed? && DecodeBody(t, b).Framed?
  }

  /**
   * A tier's entry points work exactly when the build compiles the tier
   * in; otherwise both are stubs (never one of each).
   */
  lemma FunctionalIffBuilt(t: Tier, b: Build)
    requires Modelled(t)
    ensures Functional(t, b) <==> Built(t, b)
    ensures !Built(t, b) ==> EncodeBody(t, b) == Stub && DecodeBody(t, b) == Stub
  {
    if t == Plain {
      PlainAlwaysFramed(b);
    }
  }

  /** codec->enc(...): the call through a binding runs the entry point of the tier it holds. */
  method CallEncoder<S>(codec: Codec, c: Call<S>, f: Framing<S>, b: Build, src: seq<bv8>)
    requires Modelled(codec.enc)
    modifies c
    ensures c.Snapshot() == EncodeOutcome(EncodeBody(codec.enc, b), f, old(c.Snapshot()), src)
  {
    if codec.enc == Plain {
      StreamEncodePlain(c, f, b, src);
    } else if codec.enc == Avx2 {
      StreamEncodeAvx2(c, f, b, src);
    } else {
      StreamEncodeAvx512(c, f, b, src);
    }
  }

  /** codec->dec(...): the call through a binding runs the decoder of the tier it holds. */
  method CallDecoder<S>(codec: Codec, c: Call<S>, f: Framing<S>, b: Build, src: seq<bv8>) returns (ret: int)
    requires Modelled(codec.dec)
    modifies c
    ensures (c.Snapshot(), ret) == DecodeOutcome(DecodeBody(codec.dec, b), f, old(c.Snapshot()), src)
  {
    if codec.dec == Plain {
      ret := StreamDecodePlain(c, f, b, src);
    } else if codec.dec == Avx2 {
      ret := StreamDecodeAvx2(c, f, b, src);
    } else {
      ret := StreamDecodeAvx512(c, f, b, src);
    }
  }

  /**
   * Forcing AVX512 (with no earlier honoured force flag set) on a build
   * without it binds the AVX512 stubs: encoding reports no output and
   * writes nothing else, decoding fails with -1 and writes nothing.
   */
  lemma ForcedAvx512WithoutBuild<S>(fb: ForceBits, flags: bv32, b: Build, cpu: Cpu,
                                    f: Framing<S>, before: Outcome<S>, src: seq<bv8>)
    requires HasBit(flags, 0xFFFF) && HasBit(flags, fb.avx512)
    requires forall j | 0 <= j < 5 :: !HasBit(flags, ForceBit(fb, ForceOrder[j]))
    requires !b.haveAvx512
    ensures Select(fb, flags, b, cpu) == Avx512
    ensures EncodeOutcome(EncodeBody(Avx512, b), f, before, src) == before.(outlen := 0)
    ensures DecodeOutcome(DecodeBody(Avx512, b), f, before, src) == (before, -1)
  {
    ForcedFirstMatchWins(fb, flags, 5);
  }

  /**
   * Detection never binds a stub: a tier it picks is compiled in, so
   * when its entry points are part of this model they work.
   */
  lemma DetectionBindsFunctional(b: Build, cpu: Cpu)
    requires Modelled(Detect(b, cpu))
    ensures Functional(Detect(b, cpu), b)
  {
    FunctionalIffBuilt(Detect(b, cpu), b);
  }

  /** AVX512 decoding is AVX2 decoding: the same loop between the same fragments, on every input. */
  lemma Avx512DecodesLikeAvx2<S>(b: Build, f: Framing<S>, before: Outcome<S>, src: seq<bv8>)
    requires b.haveAvx512 && b.haveAvx2
    ensures DecodeOutcome(DecodeBody(Avx512, b), f, before, src) == DecodeOutcome(DecodeBody(Avx2, b), f, before, src)
  {
  }

  /**
   * Every working entry point is the one shared framing applied to its
   * tier's loop: the word-size loop for plain, the AVX2 loops for AVX2, and
   * the AVX512 encode loop with the AVX2 decode loop for AVX512.
   */
  lemma FunctionalTierLoops<S>(t: Tier, b: Build, f: Framing<S>, before: Outcome<S>, src: seq<bv8>)
    requires Modelled(t) && Functional(t, b)
    ensures EncodeOutcome(EncodeBody(t, b), f, before, src) ==
      f.encode(if t == Plain then PlainEncodeLoop(b) else if t == Avx2 then Some(EncLoopAvx2) else Some(EncLoopAvx512),
               before, src)
    ensures DecodeOutcome(DecodeBody(t, b), f, before, src) ==
      f.decode(if t == Plain then PlainDecodeLoop(b) else Some(DecLoopAvx2), before, src)
  {
  }

  /** The fallback of base64_codec_choose always works: the plain tier is functional in every build. */
  lemma PlainFallbackFunctional(fb: ForceBits, flags: bv32, b: Build, cpu: Cpu)
    requires Select(fb, flags, b, cpu) == Plain
    ensures Functional(Select(fb, flags, b, cpu), b)
  {
    PlainAlwaysFramed(b);
  }
}
