/**
 * The codec binding of lib/codecs.h and the two stub bodies that an entry
 * point degrades to when its tier is not compiled in.
 *
 * The streaming entry points all share the C signature
 *   (state, src, srclen, out, outlen)
 * and write only through `state`, `out` and `outlen`; the class `Call`
 * holds exactly that memory.  The stream state's layout is not part of
 * this model, so it is a type parameter.
 */
module Codecs {
  import opened Wrappers
  import opened Config

  /** The implementation tiers whose entry points codec_choose.c declares. */
  datatype Tier = Plain | Ssse3 | Sse41 | Sse42 | Avx | Avx2 | Avx512 | Neon32 | Neon64

  /** Whether the build compiles a tier in: its BASE64_HAVE_* switch (plain has none). */
  predicate Built(t: Tier, b: Build)
  {
    match t
    case Plain => true
    case Ssse3 => b.haveSsse3
    case Sse41 => b.haveSse41
    case Sse42 => b.haveSse42
    case Avx => b.haveAvx
    case Avx2 => b.haveAvx2
    case Avx512 => b.haveAvx512
    case Neon32 => b.haveNeon32
    case Neon64 => b.haveNeon64
  }

  /**
   * struct base64_codec: an encoder entry point and a decoder entry point.
   * A function pointer is named by the tier whose entry point it holds.
   */
  class Codec {
    var enc: Tier
    var dec: Tier

    constructor (enc: Tier, dec: Tier)
      ensures this.enc == enc && this.dec == dec
    {
      this.enc := enc;
      this.dec := dec;
    }

    /** Both pointers come from the same tier. */
    predicate Matched()
      reads this
    {
      enc == dec
    }
  }

  /** The caller-visible memory after an entry point: *state, the out buffer and *outlen. */
  datatype Outcome<S> = Outcome(state: S, out: seq<bv8>, outlen: nat)

  /** The memory an entry point may write through its pointer arguments. */
  class Call<S> {
    var state: S
    var out: seq<bv8>
    var outlen: nat

    constructor (state: S, out: seq<bv8>, outlen: nat)
      ensures Snapshot() == Outcome(state, out, outlen)
    {
      this.state := state;
      this.out := out;
      this.outlen := outlen;
    }

    function Snapshot(): Outcome<S>
      reads this
    {
      Outcome(state, out, outlen)
    }
  }

  /** The middle encode loops an entry point can call between the shared fragments. */
  datatype EncLoop = EncLoopGeneric32 | EncLoopGeneric64 | EncLoopAvx2 | EncLoopAvx512

  /** The middle decode loops an entry point can call between the shared fragments. */
  datatype DecLoop = DecLoopGeneric32 | DecLoopAvx2

  /**
   * What the preprocessor leaves of an entry point's body: the stub, or the
   * shared head and tail fragments around one middle loop (no loop at all
   * when no `#if` branch for the loop call survives).
   */
  datatype Body<L> = Stub | Framed(loop: Option<L>)

  /**
   * The shared streaming fragments (enc_head.c/enc_tail.c and
   * dec_head.c/dec_tail.c).  Their bodies are not part of this model; the
   * loop call sits textually between them, so each pair is one abstract
   * function of the loop it surrounds: given the loop, the caller-visible
   * memory before the call and the source, it yields that memory after the
   * call (and, for decoding, the returned status).
   */
  datatype Framing<!S> = Framing(
    encode: (Option<EncLoop>, Outcome<S>, seq<bv8>) -> Outcome<S>,
    decode: (Option<DecLoop>, Outcome<S>, seq<bv8>) -> (Outcome<S>, int))

  /** The effect of an encoder entry point with the given body. */
  function EncodeOutcome<S>(body: Body<EncLoop>, f: Framing<S>, before: Outcome<S>, src: seq<bv8>): Outcome<S>
  {
    match body
    case Stub => before.(outlen := 0)
    case Framed(loop) => f.encode(loop, before, src)
  }

  /** The effect and the returned status of a decoder entry point with the given body. */
  function DecodeOutcome<S>(body: Body<DecLoop>, f: Framing<S>, before: Outcome<S>, src: seq<bv8>): (Outcome<S>, int)
  {
    match body
    case Stub => (before, -1)
    case Framed(loop) => f.decode(loop, before, src)
  }

  /** BASE64_ENC_STUB: sets *outlen to zero; state, src and out are only cast to void. */
  method EncStub<S>(c: Call<S>, src: seq<bv8>)
    modifies c`outlen
    ensures c.Snapshot() == old(c.Snapshot()).(outlen := 0)
  {
    c.outlen := 0;
  }

  /** BASE64_DEC_STUB: writes nothing at all (not even *outlen) and fails with -1. */
  method DecStub<S>(c: Call<S>, src: seq<bv8>) returns (ret: int)
    ensures ret == -1
  {
    return -1;
  }

  /** The shared head fragment, the call of `loop`, the shared tail fragment. */
  method FramedEncode<S>(c: Call<S>, f: Framing<S>, loop: Option<EncLoop>, src: seq<bv8>)
    modifies c
    ensures c.Snapshot() == EncodeOutcome(Framed(loop), f, old(c.Snapshot()), src)
  {
    var after := f.encode(loop, c.Snapshot(), src);
    c.state, c.out, c.outlen := after.state, after.out, after.outlen;
  }

  /** The shared decode head fragment, the call of `loop`, the shared decode tail fragment. */
  method FramedDecode<S>(c: Call<S>, f: Framing<S>, loop: Option<DecLoop>, src: seq<bv8>) returns (ret: int)
    modifies c
    ensures (c.Snapshot(), ret) == DecodeOutcome(Framed(loop), f, old(c.Snapshot()), src)
  {
    var result := f.decode(loop, c.Snapshot(), src);
    var after := result.0;
    c.state, c.out, c.outlen := after.state, after.out, after.outlen;
    ret := result.1;
  }

  /** A stubbed encoder leaves state and buffer alone and reports no output, whatever the framing. */
  lemma StubEncodeInert<S>(f: Framing<S>, before: Outcome<S>, src: seq<bv8>)
    ensures EncodeOutcome(Stub, f, before, src).outlen == 0
    ensures EncodeOutcome(Stub, f, before, src).state == before.state
    ensures EncodeOutcome(Stub, f, before, src).out == before.out
  {
  }

  /** A stubbed decoder fails with -1 and leaves *outlen, state and buffer unchanged. */
  lemma StubDecodeFails<S>(f: Framing<S>, before: Outcome<S>, src: seq<bv8>)
    ensures DecodeOutcome(Stub, f, before, src).1 == -1
    ensures DecodeOutcome(Stub, f, before, src).0 == before
  {
  }
}
