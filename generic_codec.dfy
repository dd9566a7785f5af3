/**
 * The plain entry points of lib/arch/generic/codec.c.  They have no stub
 * branch: the shared head and tail fragments are always compiled, and
 * BASE64_WORDSIZE picks the middle loop.
 */
module GenericCodec {
  import opened Wrappers
  import opened Config
  import opened Codecs

  /** The encode loop the preprocessor keeps: the 32-bit or the 64-bit generic loop, else none. */
  function PlainEncodeLoop(b: Build): Option<EncLoop>
  {
    if b.wordSize == 32 then Some(EncLoopGeneric32)
    else if b.wordSize == 64 then Some(EncLoopGeneric64)
    else None
  }

  /** The decode loop: the 32-bit generic loop for every word size of at least 32 bits. */
  function PlainDecodeLoop(b: Build): Option<DecLoop>
  {
    if b.wordSize >= 32 then Some(DecLoopGeneric32) else None
  }

  /** What is left of base64_stream_encode_plain in a build. */
  function PlainEncodeBody(b: Build): Body<EncLoop>
  {
    Framed(PlainEncodeLoop(b))
  }

  /** What is left of base64_stream_decode_plain in a build. */
  function PlainDecodeBody(b: Build): Body<DecLoop>
  {
    Framed(PlainDecodeLoop(b))
  }

  /** base64_stream_encode_plain: head, the word-size loop, tail. */
  method StreamEncodePlain<S>(c: Call<S>, f: Framing<S>, b: Build, src: seq<bv8>)
    modifies c
    ensures c.Snapshot() == EncodeOutcome(PlainEncodeBody(b), f, old(c.Snapshot()), src)
  {
    var loop: Option<EncLoop> := None;
    if b.wordSize == 32 {
      loop := Some(EncLoopGeneric32);
    } else if b.wordSize == 64 {
      loop := Some(EncLoopGeneric64);
    }
    FramedEncode(c, f, loop, src);
  }

  /** base64_stream_decode_plain: head, the 32-bit loop when words are that wide, tail. */
  method StreamDecodePlain<S>(c: Call<S>, f: Framing<S>, b: Build, src: seq<bv8>) returns (ret: int)
    modifies c
    ensures (c.Snapshot(), ret) == DecodeOutcome(PlainDecodeBody(b), f, old(c.Snapshot()), src)
  {
    var loop: Option<DecLoop> := None;
    if b.wordSize >= 32 {
      loop := Some(DecLoopGeneric32);
    }
    ret := FramedDecode(c, f, loop, src);
  }

  /** The plain entry points are never stubs, whatever the build. */
  lemma PlainAlwaysFramed(b: Build)
    ensures PlainEncodeBody(b).Framed? && PlainDecodeBody(b).Framed?
  {
  }

  /**
   * On the word sizes the library is built for (32 and 64 bits) the plain
   * encoder runs the generic loop of that width, and the plain decoder the
   * 32-bit loop on both.
   */
  lemma PlainLoopsByWordSize(b: Build)
    requires b.wordSize == 32 || b.wordSize == 64
    ensures PlainEncodeLoop(b) == Some(if b.wordSize == 32 then EncLoopGeneric32 else EncLoopGeneric64)
    ensures PlainDecodeLoop(b) == Some(DecLoopGeneric32)
  {
  }
}
