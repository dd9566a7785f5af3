# base64: codec selection, codec bindings and the SSSE3 encode kernel

This project models three parts of the base64 library in Dafny and proves
properties about them.

1. **Codec selection** (`lib/codec_choose.c`). `base64_codec_choose` fills
   a `struct base64_codec` with an encoder and a decoder entry point. The
   choice comes from the first source that gives one:
   - a tier forced by the caller's flag word, if its low 16 bits name one
     that `codec_choose_forced` honours;
   - otherwise the compile-time NEON choice;
   - otherwise x86 runtime detection from CPUID and XGETBV;
   - otherwise the plain codec.

   Module `CodecChoose` states each step as a reference function: the
   first tier of a preference order that qualifies. The C's nested
   if-chains are methods that write the binding, and each method is
   proved to agree with its reference function.

2. **Bindings and entry points** (`lib/codecs.h`, and `codec.c` for the
   generic, AVX2 and AVX512 tiers). An entry point takes one of two forms:
   - the encode or decode stub, when its tier is not compiled in;
   - the shared head and tail fragments around one middle loop.

   The build configuration (`BASE64_HAVE_*`, `BASE64_WORDSIZE`, the
   compiler and the target) is a `Build` record. Each `#if` therefore
   becomes an ordinary test. The shared fragments are a `Framing`
   parameter.

3. **The SSSE3 inline-assembly encoder** (`lib/arch/ssse3/enc_loop_asm.c`).
   The model covers:
   - the round accounting: four input bytes are held back, each round
     consumes 12 bytes and produces 16;
   - the 36x loop and the 18x, 9x and 6x unrolled blocks;
   - the jump into the fall-through chain of single rounds;
   - the SHUF and TRAN instruction sequences, modelled lane by lane on
     16-byte registers.

   The main result is about `EncLoopSsse3`. When the input holds at least
   16 bytes, the output buffer receives exactly the Base64 encoding (RFC
   4648, section 4) of the `12 * rounds` bytes consumed. The rest of the
   buffer is unchanged, and no 16-byte load reads past the end of the
   input.

Modules:
- `Wrappers`: `Option`.
- `Config`: the build record.
- `Codecs`: tiers, `struct base64_codec`, the stubs and the framing.
- `CodecChoose`: the selector.
- `GenericCodec`, `Avx2Codec` and `Avx512Codec`: the entry points of those tiers.
- `Bindings`: calls through a binding, and what selection means for them.
- `Rfc4648`: the reference encoding.
- `Sse`: the SSE and SSSE3 instructions used.
- `Ssse3Lanes`: SHUF and TRAN.
- `Ssse3EncLoop`: `enc_loop_ssse3`.

## Model

| member | source | states |
|---|---|---|
| Codecs.Codec.constructor | lib/codecs.h:28-32 | A binding holds the encoder and decoder entry points it is built with. |
| Codecs.EncStub | lib/codecs.h:11-17 | The encode stub sets `*outlen` to 0 and leaves the state and the output buffer as they were. |
| Codecs.DecStub | lib/codecs.h:19-26 | The decode stub returns -1 and writes nothing, not even `*outlen`. |
| Codecs.StubEncodeInert | lib/codecs.h:11-17 | Whatever the framing and input, a stubbed encoder reports zero output and keeps the state and the buffer. |
| Codecs.StubDecodeFails | lib/codecs.h:19-26 | Whatever the framing and input, a stubbed decoder fails with -1 and leaves all caller-visible memory unchanged. |
| Codecs.FramedEncode | lib/arch/generic/codec.c:20-29 | A working encoder entry point has the effect of the shared head and tail around its loop, and that effect is all the caller sees. |
| Codecs.FramedDecode | lib/arch/generic/codec.c:31-38 | A working decoder entry point has the effect, and returns the status, of the shared decode fragments around its loop. |
| CodecChoose.ForcedChoice | lib/codec_choose.c:99-156 | A forced choice exists only when the low 16 flag bits are non-zero. It is always one of the six honoured tiers, and that tier's force flag is set. |
| CodecChoose.Detect | lib/codec_choose.c:300-308 | Detection only yields a tier the build compiles in. A NEON compile-time choice always takes precedence over x86 detection. |
| CodecChoose.ForcedChoiceChain | lib/codec_choose.c:106-155 | The forced choice is the C's chain: the `& 0xFFFF` test, then PLAIN, SSSE3, SSE41, SSE42, AVX and AVX512 in that order, else nothing. |
| CodecChoose.X86ChoiceChain | lib/codec_choose.c:199-289 | x86 detection is the chain AVX512, AVX2, AVX, SSE42, SSE41, SSSE3 of usable tiers, and nothing on a non-SIMD build. |
| CodecChoose.X86ChoiceIs | lib/codec_choose.c:216-289 | When no earlier tier of the order is usable and tier i is, detection picks tier i. When none is usable, it picks nothing. |
| CodecChoose.X86ChoiceBuilt | lib/codec_choose.c:11-16 | Detection picks a tier only on an x86 SIMD build, and only a tier whose `BASE64_HAVE_*` switch is set. |
| CodecChoose.ForcedOverridesDetection | lib/codec_choose.c:292-298 | A forced tier is selected whatever the build and the CPU. |
| CodecChoose.ForcedFirstMatchWins | lib/codec_choose.c:125-154 | Tier i of the forced order is chosen if and only if: the low flag half is non-zero, its flag is set, and no earlier honoured flag is set. |
| CodecChoose.UnhonouredForceBitsFallThrough | lib/codec_choose.c:110-155 | With distinct single-bit flags, a flag word made only of the AVX2, NEON32 and NEON64 force bits forces nothing, and selection equals detection. |
| CodecChoose.ArmChoiceCases | lib/codec_choose.c:158-181 | NEON64 exactly on aarch64 with NEON64 built. NEON32 exactly when NEON32 is built and NEON64 does not apply. Nothing otherwise. |
| CodecChoose.X86ChoiceRequirements | lib/codec_choose.c:199-283 | A detected tier is in the x86 order, is compiled in, and meets every requirement: the build switch, the AVX gate, the leaf level and the feature bits. |
| CodecChoose.UsableNeedsLeaves | lib/codec_choose.c:188-283 | Every usable tier needs leaf 1. AVX2 and AVX512 also need leaf 7 and the open AVX gate. AVX needs the gate. |
| CodecChoose.X86Precedence | lib/codec_choose.c:216-283 | A usable tier shadows every narrower one: detection then picks something, and never a later tier. |
| CodecChoose.ClosedAvxGateFallsToSse | lib/codec_choose.c:210-283 | With the XSAVE/XCR0 gate closed, detection still tries SSE42, SSE41 and SSSE3 in that order. |
| CodecChoose.XmmStateAloneOpensAvxGate | lib/codec_choose.c:210-215 | Once leaf 1 reports XSAVE/XRSTOR, the gate opens if and only if either XCR0 bit 1 or bit 2 is set; both are not required. |
| CodecChoose.SelectFallsBackToPlain | lib/codec_choose.c:304-308 | With no forced, ARM or x86 choice, the plain codec is selected. |
| Config.X86Simd | lib/codec_choose.c:11-16 | `BASE64_X86_SIMD`: an x86 target with at least one of the six x86 SIMD tiers compiled in. |
| CodecChoose.FeatureBitsDistinct | lib/codec_choose.c:48-76 | The CPUID feature bits are single bits (SSSE3 bit 9, SSE4.1 bit 19, SSE4.2 bit 20, AVX bit 28, XSAVE/XRSTOR bit 27, AVX2 bit 5, AVX512VL bit 31, AVX512VBMI bit 1). The leaf-1 tests use five different bits, and the XCR0 mask is exactly bits 1 and 2. |
| CodecChoose.ArmChoice | lib/codec_choose.c:158-181 | A NEON choice exists only on a NEON build. It is NEON32 or NEON64, and it is always compiled in. |
| CodecChoose.AvxGate | lib/codec_choose.c:210-215 | The gate in front of the AVX family: leaf 1 exists, ECX reports XSAVE/XRSTOR, and `xcr0 & 0x6` is non-zero. |
| CodecChoose.Usable | lib/codec_choose.c:210-283 | Each tier's test: its build switch, the gate for the AVX family, `max_level >= 7` and leaf-7 bits for AVX512 (VL and VBMI) and AVX2, and `max_level >= 1` and leaf-1 bits for the rest. |
| CodecChoose.X86Choice | lib/codec_choose.c:183-290 | On an x86 SIMD build, the first usable tier of AVX512, AVX2, AVX, SSE42, SSE41, SSSE3; nothing otherwise. Its properties are the X86Choice* lemmas. |
| CodecChoose.Select | lib/codec_choose.c:292-309 | The forced tier if there is one, else detection. Without forcing, the selected tier is always compiled in; any selected tier is either compiled in or one the force flags can name. |
| CodecChoose.XmmOnlyStateSelectsAvx | lib/codec_choose.c:210-243 | As written, the gate is open on a CPU whose XCR0 has only the XMM state bit, so an AVX build selects AVX there. |
| CodecChoose.IntendedAvxGate | lib/codec_choose.c:205-215 | The gate as its comment and its mask's name describe it: XCR0 has both the XMM and the YMM state bits. |
| CodecChoose.IntendedX86Choice | lib/codec_choose.c:199-289 | x86 detection with that intended gate in front of AVX512, AVX2 and AVX. |
| CodecChoose.IntendedGateNeedsYmmState | lib/codec_choose.c:205-215 | With the intended gate, an AVX-family tier is picked only when XCR0 has bits 1 and 2. It then agrees with detection as written. |
| CodecChoose.IntendedAgreesUnlessOneStateBit | lib/codec_choose.c:215 | The gates, and so detection, differ only when XCR0 has exactly one of the two state bits. |
| CodecChoose.CodecChooseForced | lib/codec_choose.c:99-156 | Returns true exactly when a forced choice exists. It then binds that tier's encoder and decoder; otherwise the binding is untouched. |
| CodecChoose.CodecChooseArm | lib/codec_choose.c:158-181 | Returns true exactly when there is a NEON compile-time choice. It then binds that tier's pair; otherwise the binding is untouched. |
| CodecChoose.CodecChooseX86 | lib/codec_choose.c:183-290 | Returns true exactly when detection picks a tier. It then binds that tier's pair; otherwise the binding is untouched. |
| CodecChoose.ChooseAvxFamily | lib/codec_choose.c:199-247 | The AVX block binds the detected tier when one of AVX512, AVX2 or AVX is usable. Otherwise none of the three is usable and the binding is untouched. |
| CodecChoose.ChooseSseFamily | lib/codec_choose.c:249-289 | With the AVX family unusable, the SSE blocks bind the detected tier when there is one, and otherwise return false. |
| CodecChoose.CodecChoose | lib/codec_choose.c:292-309 | The bound encoder and decoder are the same tier, the one the reference selection picks. |
| GenericCodec.StreamEncodePlain | lib/arch/generic/codec.c:20-29 | The plain encoder runs the shared fragments around the loop the word size selects, and never degrades to a stub. |
| GenericCodec.StreamDecodePlain | lib/arch/generic/codec.c:31-38 | The plain decoder runs the shared fragments around the 32-bit loop when words are at least 32 bits. |
| GenericCodec.PlainAlwaysFramed | lib/arch/generic/codec.c:20-38 | In every build, both plain entry points are working bodies, never stubs. |
| GenericCodec.PlainLoopsByWordSize | lib/arch/generic/codec.c:10-18 | On 32-bit words the encoder uses the 32-bit loop, and on 64-bit words the 64-bit loop. The decoder uses the 32-bit loop on both. |
| GenericCodec.PlainEncodeLoop | lib/arch/generic/codec.c:10-18 | The `#if BASE64_WORDSIZE` choice of encode loop: the 32-bit loop, the 64-bit loop, or no loop at other word sizes. |
| GenericCodec.PlainDecodeLoop | lib/arch/generic/codec.c:10-18 | The `#if BASE64_WORDSIZE >= 32` choice of decode loop: the 32-bit loop, or none. |
| GenericCodec.PlainEncodeBody | lib/arch/generic/codec.c:20-29 | `base64_stream_encode_plain` after preprocessing: the shared fragments around that encode loop. It has no stub branch. |
| GenericCodec.PlainDecodeBody | lib/arch/generic/codec.c:31-38 | `base64_stream_decode_plain` after preprocessing: the shared fragments around that decode loop. |
| Avx2Codec.StreamEncodeAvx2 | lib/arch/avx2/codec.c:35-44 | Without `BASE64_HAVE_AVX2` this is the encode stub. With it, the fragments run around the AVX2 encode loop. |
| Avx2Codec.StreamDecodeAvx2 | lib/arch/avx2/codec.c:46-55 | Without `BASE64_HAVE_AVX2` this is the decode stub (-1). With it, the fragments run around the AVX2 decode loop. |
| Avx2Codec.Avx2AsmChoiceInvisible | lib/arch/avx2/codec.c:13-31 | `BASE64_AVX2_USE_ASM`, the compiler and the word size do not change either AVX2 entry point. |
| Avx2Codec.Avx2EncodeBody | lib/arch/avx2/codec.c:35-44 | `base64_stream_encode_avx2` after preprocessing: the fragments around the AVX2 encode loop under `BASE64_HAVE_AVX2`, else the encode stub. |
| Avx2Codec.Avx2DecodeBody | lib/arch/avx2/codec.c:46-55 | `base64_stream_decode_avx2` after preprocessing: the fragments around the AVX2 decode loop under `BASE64_HAVE_AVX2`, else the decode stub. |
| Avx512Codec.StreamEncodeAvx512 | lib/arch/avx512/codec.c:20-29 | Without `BASE64_HAVE_AVX512` this is the encode stub. With it, the fragments run around the AVX512 encode loop. |
| Avx512Codec.StreamDecodeAvx512 | lib/arch/avx512/codec.c:31-41 | Without `BASE64_HAVE_AVX512` this is the decode stub. With it, the fragments run around the AVX2 decode loop. |
| Avx512Codec.Avx512EncodeBody | lib/arch/avx512/codec.c:20-29 | `base64_stream_encode_avx512` after preprocessing: the fragments around the AVX512 encode loop under `BASE64_HAVE_AVX512`, else the encode stub. |
| Avx512Codec.Avx512DecodeBody | lib/arch/avx512/codec.c:31-41 | `base64_stream_decode_avx512` after preprocessing: the fragments around the AVX2 decode loop under `BASE64_HAVE_AVX512`, else the decode stub. |
| Bindings.FunctionalIffBuilt | lib/arch/avx512/codec.c:20-41 | For the plain, AVX2 and AVX512 tiers, both entry points work if and only if the tier is compiled in. Otherwise both are stubs. |
| Bindings.CallEncoder | lib/codecs.h:28-32 | Calling `codec->enc` has the effect of the encoder entry point of the tier the binding holds. |
| Bindings.CallDecoder | lib/codecs.h:28-32 | Calling `codec->dec` has the effect, and returns the status, of the decoder of the tier the binding holds. |
| Bindings.ForcedAvx512WithoutBuild | lib/codec_choose.c:150-154 | Forcing AVX512 on a build without it still selects AVX512, and binds the stubs: encoding yields zero output and decoding fails with -1. |
| Bindings.DetectionBindsFunctional | lib/codec_choose.c:199-283 | Runtime detection never binds a stub: its tier is compiled in, so its entry points work. |
| Bindings.Avx512DecodesLikeAvx2 | lib/arch/avx512/codec.c:31-41 | When both tiers are built, AVX512 decoding has exactly the effect of AVX2 decoding on every input. |
| Bindings.FunctionalTierLoops | lib/arch/avx512/codec.c:20-41 | Every working entry point is the one shared framing applied to its tier's loop: the word-size loop for plain, the AVX2 loops for AVX2, and the AVX512 encode loop with the AVX2 decode loop for AVX512. |
| Bindings.PlainFallbackFunctional | lib/codec_choose.c:307-308 | When the plain codec is selected, it works in every build. |
| Sse.SignedGreaterIsSignedOrder | lib/arch/ssse3/enc_loop_asm.c:30 | The sign-flip comparison modelling `pcmpgtb` agrees with the ordering of two's-complement bytes. |
| Ssse3Lanes.ShufTran | lib/arch/ssse3/enc_loop_asm.c:13-34 | SHUF then TRAN on a 16-byte load gives the Base64 encoding of its first 12 bytes. |
| Ssse3Lanes.Shuf | lib/arch/ssse3/enc_loop_asm.c:15-22 | BASE64_SSSE3_SHUF: `pshufb` with lut0, then the two masked copies, `pmulhuw` with msk1 and `pmullw` with msk3, combined with `por`. |
| Ssse3Lanes.Tran | lib/arch/ssse3/enc_loop_asm.c:26-34 | BASE64_SSSE3_TRAN: `psubusb` with n51, `pcmpgtb` with n25, `psubb`, `pshufb` of lut1, and `paddb` onto the fields. |
| Ssse3Lanes.EncodeBlock | lib/arch/ssse3/enc_loop_asm.c:44-48 | The data operations of a round: SHUF, then TRAN, on the loaded register. |
| Ssse3Lanes.EncodeBlockIsBase64 | lib/arch/ssse3/enc_loop_asm.c:13-34 | For every register value, the SHUF/TRAN pipeline equals the reference encoding of bytes 0..11. Bytes 12..15 do not reach the output. |
| Ssse3Lanes.BlockLane | lib/arch/ssse3/enc_loop_asm.c:15-34 | Output lane j is the four symbols of input group j (bytes 3j..3j+2). |
| Ssse3Lanes.TranLane | lib/arch/ssse3/enc_loop_asm.c:26-34 | TRAN maps a lane of four 6-bit fields to their four alphabet symbols. |
| Ssse3Lanes.TranByte | lib/arch/ssse3/enc_loop_asm.c:26-34 | For every 6-bit value, the `psubusb`/`pcmpgtb`/`psubb`/`pshufb`/`paddb` sequence, with the n51 and n25 constants of lines 261-262, yields its RFC 4648 symbol. |
| Ssse3Lanes.TranIndex | lib/arch/ssse3/enc_loop_asm.c:29-31 | The lut1 index is 0 for values below 26, 1 for 26..51, and the value minus 50 above that. |
| Ssse3Lanes.TranOffset | lib/arch/ssse3/enc_loop_asm.c:155-156 | With lut1 as written (65, 71, ten times -4, -19, -16, 0, 0), adding the entry at that index maps every 6-bit value to its symbol. |
| Ssse3Lanes.ShufLane | lib/arch/ssse3/enc_loop_asm.c:15-22 | SHUF puts the four 6-bit fields of group j, most significant first, in bytes 4j..4j+3. |
| Ssse3Lanes.ShufflePicks | lib/arch/ssse3/enc_loop_asm.c:152-153 | With lut0 as written, the shuffle puts bytes 3j+1, 3j, 3j+2 and 3j+1 of the input in lane j. |
| Ssse3Lanes.MaskWords | lib/arch/ssse3/enc_loop_asm.c:257-260 | The 16-bit lanes of msk0..msk3, the broadcasts of 0x0FC0FC00, 0x04000040, 0x003F03F0 and 0x01000010: 0xFC00, 0x0040, 0x03F0, 0x0010 in even lanes and 0x0FC0, 0x0400, 0x003F, 0x0100 in odd lanes. |
| Ssse3Lanes.FieldsLow | lib/arch/ssse3/enc_loop_asm.c:18-22 | In the low half of a lane, masking and multiplying yield fields 0 and 1 of the group. |
| Ssse3Lanes.FieldsHigh | lib/arch/ssse3/enc_loop_asm.c:18-22 | In the high half of a lane, masking and multiplying yield fields 2 and 3 of the group. |
| Ssse3EncLoop.UnrolledSchedules | lib/arch/ssse3/enc_loop_asm.c:63-118 | A block of n ROUND_3 macros loads and stores each of its 3n+3 rounds exactly once, in order, and each store follows its load. |
| Ssse3EncLoop.Init | lib/arch/ssse3/enc_loop_asm.c:63-68 | BASE64_SSSE3_ROUND_3_INIT: loads of rounds 0, 1 and 2. |
| Ssse3EncLoop.Round3 | lib/arch/ssse3/enc_loop_asm.c:77-89 | BASE64_SSSE3_ROUND_3(r): load r+3, store r, load r+4, store r+1, load r+5, store r+2. |
| Ssse3EncLoop.End | lib/arch/ssse3/enc_loop_asm.c:93-100 | BASE64_SSSE3_ROUND_3_END(r): stores of rounds r+3, r+4 and r+5. |
| Ssse3EncLoop.Chain | lib/arch/ssse3/enc_loop_asm.c:102-108 | Daisy-chained ROUND_3_A/ROUND_3_B macros at rounds r, r+3, ...; A and B differ only in registers. |
| Ssse3EncLoop.Unrolled | lib/arch/ssse3/enc_loop_asm.c:110-118 | INIT, n ROUND_3 macros and the END of the last one (the `_LAST` macro), as the 36x, 18x, 9x and 6x blocks are written. |
| Ssse3EncLoop.Single | lib/arch/ssse3/enc_loop_asm.c:44-50 | BASE64_SSSE3_ROUND: load and store of one round. |
| Ssse3EncLoop.Block | lib/arch/ssse3/enc_loop_asm.c:172-240 | The block for n ROUND_3 macros (n = 11, 5, 2, 1), or a single round for n = 0; BlockRounds gives its 3n+3 or 1 rounds. |
| Ssse3EncLoop.Lddqu | lib/arch/ssse3/enc_loop_asm.c:10-11 | BASE64_SSSE3_LOAD: the 16 input bytes at the round's offset, all of them before the end of the readable input. |
| Ssse3EncLoop.ExecLoad | lib/arch/ssse3/enc_loop_asm.c:10-11 | A load in a block's schedule is of the next round and keeps the block's running invariant. |
| Ssse3EncLoop.ExecStore | lib/arch/ssse3/enc_loop_asm.c:38-39 | A store in a block's schedule (SHUF, TRAN and `movdqu` of the next loaded round) extends the written encoding by one round. |
| Ssse3EncLoop.BlockSchedules | lib/arch/ssse3/enc_loop_asm.c:44-50 | This holds for every block, including the single self-contained round. |
| Ssse3EncLoop.ReplayAppend | lib/arch/ssse3/enc_loop_asm.c:77-89 | Replaying concatenated macro schedules replays them one after the other. |
| Ssse3EncLoop.SpliceAdjacent | lib/arch/ssse3/enc_loop_asm.c:38-39 | Writing y right after x in the output buffer is the same as writing x + y. |
| Ssse3EncLoop.EncodedAppend | lib/arch/ssse3/enc_loop_asm.c:184-185 | Encoding d rounds and then k more rounds is the same as encoding d + k rounds. |
| Ssse3EncLoop.Advance | lib/arch/ssse3/enc_loop_asm.c:198-200 | Writing k encoded rounds right after d encoded rounds writes d + k encoded rounds. |
| Ssse3EncLoop.Movdqu | lib/arch/ssse3/enc_loop_asm.c:38-39 | The store writes the register's 16 bytes at the offset and leaves every other byte unchanged. |
| Ssse3EncLoop.StoreStep | lib/arch/ssse3/enc_loop_asm.c:44-50 | Storing round i's SHUF/TRAN result after rounds 0..i-1 extends the encoded prefix by one round. |
| Ssse3EncLoop.RunBlock | lib/arch/ssse3/enc_loop_asm.c:167-219 | Running a well-scheduled block of k rounds writes exactly the encoding of its 12k input bytes at the output pointer. No load reaches the end of the input. |
| Ssse3EncLoop.Rounds | lib/arch/ssse3/enc_loop_asm.c:137-140 | With slen >= 16: at least one round, the last 16-byte load ends inside the input, and one more round would not. |
| Ssse3EncLoop.TailEntry | lib/arch/ssse3/enc_loop_asm.c:222-231 | The jump table enters the single-round chain at the label equal to the remaining rounds (0..5). |
| Ssse3EncLoop.Continue | lib/arch/ssse3/enc_loop_asm.c:184-219 | A block followed by its pointer updates extends the encoding by that block's rounds. |
| Ssse3EncLoop.EncodingGrows | lib/arch/ssse3/enc_loop_asm.c:184-185 | k more rounds written at the output pointer extend the encoding invariant by k rounds. |
| Ssse3EncLoop.MaybeBlock | lib/arch/ssse3/enc_loop_asm.c:190-219 | An 18x, 9x or 6x block runs exactly when enough rounds remain, subtracts its rounds, and keeps the encoding invariant. |
| Ssse3EncLoop.Dispatch | lib/arch/ssse3/enc_loop_asm.c:189-240 | After the 36x loop, the blocks and the fall-through chain encode all remaining rounds (fewer than 36). |
| Ssse3EncLoop.FallThrough | lib/arch/ssse3/enc_loop_asm.c:233-240 | Entering the chain at label n runs exactly n single rounds. |
| Ssse3EncLoop.EncLoopSsse3 | lib/arch/ssse3/enc_loop_asm.c:126-267 | Below 16 bytes nothing changes. Otherwise `*s` and `*o` advance by 12 and 16 per round, `*slen` and `*olen` change by the same amounts, and `dst` receives exactly the Base64 encoding of the consumed bytes. |
| Rfc4648.EncodeAppend | lib/arch/ssse3/enc_loop_asm.c:142-143 | The reference encoding respects group-aligned concatenation, so the per-round outputs add up to the encoding of all consumed bytes. |

## Findings

| source | as written | input that shows it | evidently intended | confidence | as-written member | corrected member |
|---|---|---|---|---|---|---|
| lib/codec_choose.c:215 | `xcr_mask & 0x6` is non-zero, so either the XMM or the YMM state bit in XCR0 opens the AVX gate | `max_level` 1, leaf-1 ECX with the XSAVE/XRSTOR and AVX bits, XCR0 = 0x2, a build with only AVX: AVX is selected although the OS does not save the YMM registers | both bits, `(xcr_mask & 0x6) == 0x6`, as the comment at lines 205-206 and the mask's name at line 76 say | medium; not executed | CodecChoose.XmmOnlyStateSelectsAvx | CodecChoose.IntendedGateNeedsYmmState |

The selection methods (`CodecChoose.CodecChooseX86` and the methods it calls) model the test as written. `CodecChoose.IntendedAvxGate` and `CodecChoose.IntendedX86Choice` give the corrected detection. `CodecChoose.IntendedAgreesUnlessOneStateBit` shows that the two give the same tier unless XCR0 has exactly one of the two state bits.

## Left out

- The hardware queries (`cpuid`, `__get_cpuid_max`, `__cpuid_count`, `xgetbv`) and their MSVC shims are not executed. Their answers are the fields of `CodecChoose.Cpu`.
- The `BASE64_FORCE_*` values are defined in `libbase64.h`, which is not part of this model. They are the `ForceBits` parameter; `UnhonouredForceBitsFallThrough` assumes they are distinct single bits.
- `CodecChoose.Cpu.maxLevel` is the unsigned int from `__get_cpuid_max`. It is modelled as an unbounded natural, because the code only compares it with 1 and 7.
- CodecChoose.CodecChooseX86: the single C function is split into `ChooseAvxFamily` and `ChooseSseFamily`, one per `#if` group. The branches, their order and the bindings are unchanged.
- The function-pointer fields of `struct base64_codec` are modelled as tier tags. Calling through them is `Bindings.CallEncoder` / `Bindings.CallDecoder`, for the plain, AVX2 and AVX512 tiers only.
- The entry points of the SSSE3, SSE4.1, SSE4.2, AVX, NEON32 and NEON64 codecs are not part of this model. Their files follow the same pattern as the AVX2 one.
- The shared fragments (`enc_head.c`, `enc_tail.c`, `dec_head.c`, `dec_tail.c`) and all encode and decode loops except `enc_loop_ssse3` are not part of this model. The fragments are the `Codecs.Framing` parameter; a loop is named by its tag.
- The layout of `struct base64_state` is not part of this model. It is a type parameter.
- `BASE64_AVX2_USE_ASM` only selects which file supplies `enc_loop_avx2`. That file's body is not part of this model.
- In `enc_loop_ssse3`, the following are abstracted: register allocation, the A/B register variants, the interleaving of data operations within a round, `.balign`, and the clobber list. A block is modelled as its sequence of loads and stores by round number, with each register holding its round's load.
- Ssse3EncLoop.EncLoopSsse3: requires that the output buffer holds `16 * rounds` bytes from `o`. The C leaves this to its caller.
- Ssse3EncLoop.EncLoopSsse3: `size_t` overflow of the pointer and length arithmetic is not modelled. Lengths are unbounded naturals.
- Ssse3EncLoop.EncLoopSsse3: `src` is modelled as a value rather than memory that may alias `dst`.
