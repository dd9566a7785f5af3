/**
 * Codec selection (lib/codec_choose.c): a forced choice from the user's
 * flag word, else the ARM compile-time choice, else x86 runtime detection
 * from CPUID and XGETBV, else the plain codec.
 *
 * The hardware queries (cpuid, __get_cpuid_max, xgetbv) are not executed
 * here: their answers are the fields of a `Cpu` record.  The
 * BASE64_FORCE_* values live in libbase64.h, which is not part of this
 * model, so they are a `ForceBits` parameter.
 *
 * The reference functions (ForcedChoice, ArmChoice, X86Choice, Select)
 * state the decision as "the first tier of a preference order that
 * qualifies"; the methods follow the C's nested if-chains and write the
 * binding, and are proved to agree with them.
 */
module CodecChoose {
  import opened Wrappers
  import opened Config
  import opened Codecs

  // CPUID feature bits.
  const BitAvx512vl: bv32 := 1 << 31      // leaf 7, EBX
  const BitAvx512vbmi: bv32 := 1 << 1     // leaf 7, ECX
  const BitAvx2: bv32 := 1 << 5           // leaf 7, EBX
  const BitSsse3: bv32 := 1 << 9          // leaf 1, ECX
  const BitSse41: bv32 := 1 << 19         // leaf 1, ECX
  const BitSse42: bv32 := 1 << 20         // leaf 1, ECX
  const BitAvx: bv32 := 1 << 28           // leaf 1, ECX
  const BitXsaveXrstore: bv32 := 1 << 27  // leaf 1, ECX

  /** The XCR0 bits for XMM (bit 1) and YMM (bit 2) register state. */
  const XcrXmmAndYmmStateEnabledByOs: bv64 := 0x6

  /** The answers of the detection queries on the running CPU. */
  datatype Cpu = Cpu(
    maxLevel: nat,    // highest basic CPUID leaf (the unsigned int __get_cpuid_max returns)
    leaf1Ecx: bv32,   // CPUID leaf 1, ECX
    leaf7Ebx: bv32,   // CPUID leaf 7 subleaf 0, EBX
    leaf7Ecx: bv32,   // CPUID leaf 7 subleaf 0, ECX
    xcr0: bv64)       // XGETBV(0)

  /** The BASE64_FORCE_* flag values. */
  datatype ForceBits = ForceBits(
    avx2: bv32, neon32: bv32, neon64: bv32, plain: bv32, ssse3: bv32,
    sse41: bv32, sse42: bv32, avx: bv32, avx512: bv32)

  /** `word & mask` is non-zero. */
  predicate HasBit(word: bv32, mask: bv32)
  {
    word & mask != 0
  }

  /** `word & mask` is non-zero, on the 64-bit XGETBV result. */
  predicate HasBit64(word: bv64, mask: bv64)
  {
    word & mask != 0
  }

  predicate SingleBit(x: bv32)
  {
    x != 0 && x & (x - 1) == 0
  }

  /** The force flags are distinct single bits. */
  predicate WellFormed(fb: ForceBits)
  {
    var bits := [fb.avx2, fb.neon32, fb.neon64, fb.plain, fb.ssse3, fb.sse41, fb.sse42, fb.avx, fb.avx512];
    && (forall i | 0 <= i < |bits| :: SingleBit(bits[i]))
    && (forall i, j | 0 <= i < j < |bits| :: bits[i] != bits[j])
  }

  /** The force flag that names a tier. */
  function ForceBit(fb: ForceBits, t: Tier): bv32
  {
    match t
    case Plain => fb.plain
    case Ssse3 => fb.ssse3
    case Sse41 => fb.sse41
    case Sse42 => fb.sse42
    case Avx => fb.avx
    case Avx2 => fb.avx2
    case Avx512 => fb.avx512
    case Neon32 => fb.neon32
    case Neon64 => fb.neon64
  }

  /** The order in which codec_choose_forced tests the force flags it honours. */
  const ForceOrder: seq<Tier> := [Plain, Ssse3, Sse41, Sse42, Avx, Avx512]

  /** The order in which codec_choose_x86 tries the x86 tiers, widest first. */
  const X86Order: seq<Tier> := [Avx512, Avx2, Avx, Sse42, Sse41, Ssse3]

  /** What makes a tier acceptable: its force flag is set, or x86 detection accepts it. */
  datatype Criterion = ForceFlag(fb: ForceBits, flags: bv32) | Detected(b: Build, cpu: Cpu)

  predicate Accepts(c: Criterion, t: Tier)
  {
    match c
    case ForceFlag(fb, flags) => HasBit(flags, ForceBit(fb, t))
    case Detected(b, cpu) => Usable(t, b, cpu)
  }

  /** The position of the first element of `order` that `c` accepts (|order| when none is). */
  function FirstIndex(order: seq<Tier>, c: Criterion): (i: nat)
    ensures i <= |order|
    ensures forall j | 0 <= j < i :: !Accepts(c, order[j])
    ensures i < |order| ==> Accepts(c, order[i])
  {
    if order == [] then 0
    else if Accepts(c, order[0]) then 0
    else 1 + FirstIndex(order[1..], c)
  }

  /** The first element of `order` that `c` accepts, if any. */
  function FirstOf(order: seq<Tier>, c: Criterion): Option<Tier>
  {
    var i := FirstIndex(order, c);
    if i < |order| then Some(order[i]) else None
  }

  /** codec_choose_forced: the forced tier, if the low 16 flag bits name one it honours. */
  function ForcedChoice(fb: ForceBits, flags: bv32): (r: Option<Tier>)
    ensures r.Some? ==> HasBit(flags, 0xFFFF) && r.value in ForceOrder && HasBit(flags, ForceBit(fb, r.value))
  {
    if !HasBit(flags, 0xFFFF) then None
    else FirstOf(ForceOrder, ForceFlag(fb, flags))
  }

  /** codec_choose_arm: NEON builds decide at compile time, NEON64 on aarch64 if built, else NEON32. */
  function ArmChoice(b: Build): (r: Option<Tier>)
    ensures r.Some? ==> b.armNeon && Built(r.value, b) && (r.value == Neon32 || r.value == Neon64)
  {
    if b.armNeon && ((b.aarch64 && b.haveNeon64) || b.haveNeon32) then
      Some(if b.aarch64 && b.haveNeon64 then Neon64 else Neon32)
    else None
  }

  /**
   * The gate in front of the AVX-family tiers: CPUID leaf 1 exists and
   * reports XSAVE/XRSTOR, and XCR0 has the XMM or the YMM state bit set
   * (either bit suffices: the mask test is `& 0x6`, not `== 0x6`).
   */
  predicate AvxGate(cpu: Cpu)
  {
    cpu.maxLevel >= 1 && HasBit(cpu.leaf1Ecx, BitXsaveXrstore) && HasBit64(cpu.xcr0, XcrXmmAndYmmStateEnabledByOs)
  }

  /**
   * The gate as the comment above it and the name of its mask describe it:
   * XCR0 reports that the OS saves both the XMM and the YMM register state.
   */
  predicate IntendedAvxGate(cpu: Cpu)
  {
    cpu.maxLevel >= 1 && HasBit(cpu.leaf1Ecx, BitXsaveXrstore)
    && cpu.xcr0 & XcrXmmAndYmmStateEnabledByOs == XcrXmmAndYmmStateEnabledByOs
  }

  /** Whether x86 detection accepts a tier: compiled in, and the CPU bits it checks are present. */
  predicate Usable(t: Tier, b: Build, cpu: Cpu)
  {
    if t == Avx512 then
      b.haveAvx512 && AvxGate(cpu) && cpu.maxLevel >= 7
      && HasBit(cpu.leaf7Ebx, BitAvx512vl) && HasBit(cpu.leaf7Ecx, BitAvx512vbmi)
    else if t == Avx2 then b.haveAvx2 && AvxGate(cpu) && cpu.maxLevel >= 7 && HasBit(cpu.leaf7Ebx, BitAvx2)
    else if t == Avx then b.haveAvx && AvxGate(cpu) && HasBit(cpu.leaf1Ecx, BitAvx)
    else if t == Sse42 then b.haveSse42 && cpu.maxLevel >= 1 && HasBit(cpu.leaf1Ecx, BitSse42)
    else if t == Sse41 then b.haveSse41 && cpu.maxLevel >= 1 && HasBit(cpu.leaf1Ecx, BitSse41)
    else if t == Ssse3 then b.haveSsse3 && cpu.maxLevel >= 1 && HasBit(cpu.leaf1Ecx, BitSsse3)
    else false
  }

  /** codec_choose_x86: on an x86 SIMD build, the first usable tier of X86Order. */
  function X86Choice(b: Build, cpu: Cpu): Option<Tier>
  {
    if X86Simd(b) then FirstOf(X86Order, Detected(b, cpu)) else None
  }

  /** Runtime detection: the ARM compile-time choice, else x86 detection, else plain. */
  function Detect(b: Build, cpu: Cpu): (r: Tier)
    ensures Built(r, b)
    ensures ArmChoice(b).Some? ==> r == ArmChoice(b).value
  {
    match ArmChoice(b)
    case Some(t) => t
    case None =>
      match X86Choice(b, cpu)
      case Some(t) => X86ChoiceBuilt(b, cpu); t
      case None => Plain
  }

  /** base64_codec_choose: a forced tier if there is one, else detection. */
  function Select(fb: ForceBits, flags: bv32, b: Build, cpu: Cpu): (r: Tier)
    ensures ForcedChoice(fb, flags).None? ==> Built(r, b)
    ensures r in ForceOrder || Built(r, b)
  {
    match ForcedChoice(fb, flags)
    case Some(t) => t
    case None => Detect(b, cpu)
  }

  /** One step of FirstOf on a suffix of an order: its head if accepted, else the next suffix. */
  lemma FirstOfStep(order: seq<Tier>, i: nat, c: Criterion)
    requires i < |order|
    ensures FirstOf(order[i..], c) == if Accepts(c, order[i]) then Some(order[i]) else FirstOf(order[i + 1..], c)
  {
    assert order[i..][0] == order[i] && order[i..][1..] == order[i + 1..];
  }

  /** FirstOf on a six-element order, written out as a chain of tests. */
  lemma FirstOfSix(t0: Tier, t1: Tier, t2: Tier, t3: Tier, t4: Tier, t5: Tier, c: Criterion)
    ensures FirstOf([t0, t1, t2, t3, t4, t5], c) ==
      if Accepts(c, t0) then Some(t0)
      else if Accepts(c, t1) then Some(t1)
      else if Accepts(c, t2) then Some(t2)
      else if Accepts(c, t3) then Some(t3)
      else if Accepts(c, t4) then Some(t4)
      else if Accepts(c, t5) then Some(t5)
      else None
  {
    var order := [t0, t1, t2, t3, t4, t5];
    FirstOfStep(order, 0, c);
    FirstOfStep(order, 1, c);
    FirstOfStep(order, 2, c);
    FirstOfStep(order, 3, c);
    FirstOfStep(order, 4, c);
    FirstOfStep(order, 5, c);
    assert order[0..] == order && order[6..] == [];
  }

  /** ForcedChoice written out as the C's chain of flag tests. */
  lemma ForcedChoiceChain(fb: ForceBits, flags: bv32)
    ensures ForcedChoice(fb, flags) ==
      if !HasBit(flags, 0xFFFF) then None
      else if HasBit(flags, fb.plain) then Some(Plain)
      else if HasBit(flags, fb.ssse3) then Some(Ssse3)
      else if HasBit(flags, fb.sse41) then Some(Sse41)
      else if HasBit(flags, fb.sse42) then Some(Sse42)
      else if HasBit(flags, fb.avx) then Some(Avx)
      else if HasBit(flags, fb.avx512) then Some(Avx512)
      else None
  {
    FirstOfSix(Plain, Ssse3, Sse41, Sse42, Avx, Avx512, ForceFlag(fb, flags));
  }

  /** X86Choice written out tier by tier. */
  lemma X86ChoiceChain(b: Build, cpu: Cpu)
    ensures X86Choice(b, cpu) ==
      if !X86Simd(b) then None
      else if Usable(Avx512, b, cpu) then Some(Avx512)
      else if Usable(Avx2, b, cpu) then Some(Avx2)
      else if Usable(Avx, b, cpu) then Some(Avx)
      else if Usable(Sse42, b, cpu) then Some(Sse42)
      else if Usable(Sse41, b, cpu) then Some(Sse41)
      else if Usable(Ssse3, b, cpu) then Some(Ssse3)
      else None
  {
    FirstOfSix(Avx512, Avx2, Avx, Sse42, Sse41, Ssse3, Detected(b, cpu));
  }

  /**
   * Detection picks X86Order[i] when no earlier tier of the order is
   * usable and that one is (i == |X86Order|: none is usable, and nothing
   * is picked).  The tiers are named one by one, as the C tests them.
   */
  lemma X86ChoiceIs(b: Build, cpu: Cpu, i: nat)
    requires X86Simd(b) && i <= |X86Order|
    requires i > 0 ==> !Usable(Avx512, b, cpu)
    requires i > 1 ==> !Usable(Avx2, b, cpu)
    requires i > 2 ==> !Usable(Avx, b, cpu)
    requires i > 3 ==> !Usable(Sse42, b, cpu)
    requires i > 4 ==> !Usable(Sse41, b, cpu)
    requires i > 5 ==> !Usable(Ssse3, b, cpu)
    requires i < |X86Order| ==> Usable(X86Order[i], b, cpu)
    ensures X86Choice(b, cpu) == if i < |X86Order| then Some(X86Order[i]) else None
  {
    X86ChoiceChain(b, cpu);
  }

  /** x86 detection only picks a tier the build compiles in, and only on an x86 SIMD build. */
  lemma X86ChoiceBuilt(b: Build, cpu: Cpu)
    ensures X86Choice(b, cpu).Some? ==> X86Simd(b) && Built(X86Choice(b, cpu).value, b)
  {
    X86ChoiceChain(b, cpu);
  }

  /** A forced tier overrides detection on every build and CPU, and needs a non-zero low flag half. */
  lemma ForcedOverridesDetection(fb: ForceBits, flags: bv32, b: Build, cpu: Cpu)
    requires ForcedChoice(fb, flags).Some?
    ensures HasBit(flags, 0xFFFF)
    ensures Select(fb, flags, b, cpu) == ForcedChoice(fb, flags).value
  {
  }

  /**
   * Among the force flags it honours, the first set one in ForceOrder
   * wins, whatever other bits are set.
   */
  lemma ForcedFirstMatchWins(fb: ForceBits, flags: bv32, i: nat)
    requires i < |ForceOrder|
    ensures ForcedChoice(fb, flags) == Some(ForceOrder[i]) <==>
      && HasBit(flags, 0xFFFF)
      && HasBit(flags, ForceBit(fb, ForceOrder[i]))
      && forall j | 0 <= j < i :: !HasBit(flags, ForceBit(fb, ForceOrder[j]))
  {
    ForcedChoiceChain(fb, flags);
  }

  /**
   * The AVX2, NEON32 and NEON64 force flags are not honoured: a flag word
   * made only of them selects exactly what detection would.
   */
  lemma UnhonouredForceBitsFallThrough(fb: ForceBits, flags: bv32, b: Build, cpu: Cpu)
    requires WellFormed(fb)
    requires flags & !(fb.avx2 | fb.neon32 | fb.neon64) == 0
    ensures ForcedChoice(fb, flags) == None
    ensures Select(fb, flags, b, cpu) == Detect(b, cpu)
  {
    ForcedChoiceChain(fb, flags);
    var bits := [fb.avx2, fb.neon32, fb.neon64, fb.plain, fb.ssse3, fb.sse41, fb.sse42, fb.avx, fb.avx512];
    forall k | 3 <= k < 9
      ensures !HasBit(flags, bits[k])
    {
      assert SingleBit(bits[k]) && bits[k] != bits[0] && bits[k] != bits[1] && bits[k] != bits[2];
      assert SingleBit(bits[0]) && SingleBit(bits[1]) && SingleBit(bits[2]);
      SingleBitsOutside(flags, bits[0], bits[1], bits[2], bits[k]);
    }
    assert !HasBit(flags, bits[3]) && !HasBit(flags, bits[4]) && !HasBit(flags, bits[5]);
    assert !HasBit(flags, bits[6]) && !HasBit(flags, bits[7]) && !HasBit(flags, bits[8]);
  }

  /** A single bit distinct from three others is clear in any word made of those three. */
  lemma SingleBitsOutside(flags: bv32, x: bv32, y: bv32, z: bv32, w: bv32)
    requires SingleBit(x) && SingleBit(y) && SingleBit(z) && SingleBit(w)
    requires w != x && w != y && w != z
    requires flags & !(x | y | z) == 0
    ensures !HasBit(flags, w)
  {
  }

  /** On a NEON build with a NEON tier the choice is compile-time and ignores the CPU words. */
  lemma ArmChoiceCases(b: Build)
    ensures ArmChoice(b) == Some(Neon64) <==> b.armNeon && b.aarch64 && b.haveNeon64
    ensures ArmChoice(b) == Some(Neon32) <==> b.armNeon && b.haveNeon32 && !(b.aarch64 && b.haveNeon64)
    ensures ArmChoice(b).None? <==> !b.armNeon || (!b.haveNeon32 && !(b.aarch64 && b.haveNeon64))
  {
  }

  /**
   * Detection picks a tier only on an x86 SIMD build, only from X86Order,
   * and only when every requirement of Usable holds for it: the build
   * switch, the AVX gate for the AVX family, the leaf level and the CPUID
   * feature bits.
   */
  lemma X86ChoiceRequirements(b: Build, cpu: Cpu, t: Tier)
    requires X86Choice(b, cpu) == Some(t)
    ensures X86Simd(b) && Built(t, b) && t in X86Order
    ensures Usable(t, b, cpu)
  {
    var i := FirstIndex(X86Order, Detected(b, cpu));
    assert t == X86Order[i];
  }

  /** The leaf-7 tiers need leaf 7 to exist and the AVX gate open, and the rest leaf 1. */
  lemma UsableNeedsLeaves(t: Tier, b: Build, cpu: Cpu)
    requires Usable(t, b, cpu)
    ensures cpu.maxLevel >= 1
    ensures t == Avx512 || t == Avx2 ==> cpu.maxLevel >= 7 && AvxGate(cpu)
    ensures t == Avx ==> AvxGate(cpu)
  {
  }

  /** A usable tier shadows every narrower one: detection never skips past it. */
  lemma X86Precedence(b: Build, cpu: Cpu, i: nat, j: nat)
    requires X86Simd(b)
    requires i < j < |X86Order|
    requires Usable(X86Order[i], b, cpu)
    ensures X86Choice(b, cpu).Some?
    ensures X86Choice(b, cpu) != Some(X86Order[j])
  {
    X86ChoiceChain(b, cpu);
  }

  /** When the AVX gate is closed, detection still tries SSE4.2, SSE4.1 and SSSE3 in that order. */
  lemma ClosedAvxGateFallsToSse(b: Build, cpu: Cpu)
    requires X86Simd(b)
    requires !AvxGate(cpu)
    ensures X86Choice(b, cpu) ==
      if Usable(Sse42, b, cpu) then Some(Sse42)
      else if Usable(Sse41, b, cpu) then Some(Sse41)
      else if Usable(Ssse3, b, cpu) then Some(Ssse3)
      else None
  {
    X86ChoiceChain(b, cpu);
  }

  /** Either XCR0 state bit opens the AVX gate: the OS need not have enabled YMM state. */
  lemma XmmStateAloneOpensAvxGate(cpu: Cpu)
    requires cpu.maxLevel >= 1 && HasBit(cpu.leaf1Ecx, BitXsaveXrstore)
    ensures AvxGate(cpu) <==> HasBit64(cpu.xcr0, 2) || HasBit64(cpu.xcr0, 4)
  {
  }

  /** Nothing forced, no ARM choice and no x86 tier: the plain codec is bound. */
  lemma SelectFallsBackToPlain(fb: ForceBits, flags: bv32, b: Build, cpu: Cpu)
    requires ForcedChoice(fb, flags).None? && ArmChoice(b).None? && X86Choice(b, cpu).None?
    ensures Select(fb, flags, b, cpu) == Plain
  {
  }

  /**
   * The CPUID bits the tiers test are single bits, and no two tests of
   * the same register share one; the XCR0 mask is the XMM and YMM state bits.
   */
  lemma FeatureBitsDistinct()
    ensures SingleBit(BitSsse3) && SingleBit(BitSse41) && SingleBit(BitSse42)
    ensures SingleBit(BitAvx) && SingleBit(BitXsaveXrstore)
    ensures SingleBit(BitAvx2) && SingleBit(BitAvx512vl) && SingleBit(BitAvx512vbmi)
    ensures BitSsse3 | BitSse41 | BitSse42 | BitAvx | BitXsaveXrstore
         == BitSsse3 ^ BitSse41 ^ BitSse42 ^ BitAvx ^ BitXsaveXrstore
    ensures BitAvx2 & BitAvx512vl == 0
    ensures XcrXmmAndYmmStateEnabledByOs == (1 << 1) | (1 << 2)
  {
  }

  // ---------------------------------------------------------------------
  // The XCR0 test as written and as intended.

  /**
   * With XSAVE/XRSTOR and AVX reported and only the XMM state bit in XCR0,
   * detection on an AVX build picks AVX, although the OS does not save the
   * YMM registers.
   */
  lemma XmmOnlyStateSelectsAvx()
    ensures var b := Build(true, false, false, false, false, false, true, false, false, false, false, 64, true, None);
      var cpu := Cpu(1, BitXsaveXrstore | BitAvx, 0, 0, 2);
      X86Choice(b, cpu) == Some(Avx) && !HasBit64(cpu.xcr0, 4)
  {
    var b := Build(true, false, false, false, false, false, true, false, false, false, false, 64, true, None);
    var cpu := Cpu(1, BitXsaveXrstore | BitAvx, 0, 0, 2);
    assert AvxGate(cpu) && HasBit(cpu.leaf1Ecx, BitAvx);
    X86ChoiceIs(b, cpu, 2);
  }

  /** Usable, with the intended gate in front of the AVX-family tiers. */
  predicate IntendedUsable(t: Tier, b: Build, cpu: Cpu)
  {
    Usable(t, b, cpu) && (t == Avx512 || t == Avx2 || t == Avx ==> IntendedAvxGate(cpu))
  }

  /** x86 detection with the intended gate. */
  function IntendedX86Choice(b: Build, cpu: Cpu): Option<Tier>
  {
    if !X86Simd(b) then None
    else if IntendedUsable(Avx512, b, cpu) then Some(Avx512)
    else if IntendedUsable(Avx2, b, cpu) then Some(Avx2)
    else if IntendedUsable(Avx, b, cpu) then Some(Avx)
    else if IntendedUsable(Sse42, b, cpu) then Some(Sse42)
    else if IntendedUsable(Sse41, b, cpu) then Some(Sse41)
    else if IntendedUsable(Ssse3, b, cpu) then Some(Ssse3)
    else None
  }

  /** With the intended gate, an AVX-family tier is picked only when the OS saves both XMM and YMM state. */
  lemma IntendedGateNeedsYmmState(b: Build, cpu: Cpu)
    requires IntendedX86Choice(b, cpu) in {Some(Avx512), Some(Avx2), Some(Avx)}
    ensures HasBit64(cpu.xcr0, 2) && HasBit64(cpu.xcr0, 4)
    ensures IntendedX86Choice(b, cpu) == X86Choice(b, cpu)
  {
    X86ChoiceChain(b, cpu);
    assert IntendedAvxGate(cpu);
    XcrBothBits(cpu.xcr0);
  }

  /**
   * The two gates differ only when XCR0 has exactly one of the two state
   * bits: otherwise detection picks the same tier either way.
   */
  lemma IntendedAgreesUnlessOneStateBit(b: Build, cpu: Cpu)
    requires cpu.xcr0 & 6 == 6 || cpu.xcr0 & 6 == 0
    ensures IntendedX86Choice(b, cpu) == X86Choice(b, cpu)
  {
    X86ChoiceChain(b, cpu);
    assert AvxGate(cpu) <==> IntendedAvxGate(cpu);
  }

  lemma XcrBothBits(x: bv64)
    requires x & 6 == 6
    ensures HasBit64(x, 2) && HasBit64(x, 4)
  {
  }

  // ---------------------------------------------------------------------
  // The C control flow, writing the binding through the codec pointer.

  /** codec_choose_forced */
  method CodecChooseForced(codec: Codec, fb: ForceBits, flags: bv32) returns (chosen: bool)
    modifies codec
    ensures chosen == ForcedChoice(fb, flags).Some?
    ensures chosen ==> codec.enc == ForcedChoice(fb, flags).value && codec.Matched()
    ensures !chosen ==> codec.enc == old(codec.enc) && codec.dec == old(codec.dec)
  {
    ForcedChoiceChain(fb, flags);
    if !HasBit(flags, 0xFFFF) {
      return false;
    }
    // The AVX2, NEON32 and NEON64 force branches are commented out in the source.
    if HasBit(flags, fb.plain) {
      codec.enc := Plain;
      codec.dec := Plain;
      return true;
    }
    if HasBit(flags, fb.ssse3) {
      codec.enc := Ssse3;
      codec.dec := Ssse3;
      return true;
    }
    if HasBit(flags, fb.sse41) {
      codec.enc := Sse41;
      codec.dec := Sse41;
      return true;
    }
    if HasBit(flags, fb.sse42) {
      codec.enc := Sse42;
      codec.dec := Sse42;
      return true;
    }
    if HasBit(flags, fb.avx) {
      codec.enc := Avx;
      codec.dec := Avx;
      return true;
    }
    if HasBit(flags, fb.avx512) {
      codec.enc := Avx512;
      codec.dec := Avx512;
      return true;
    }
    return false;
  }

  /** codec_choose_arm */
  method CodecChooseArm(codec: Codec, b: Build) returns (chosen: bool)
    modifies codec
    ensures chosen == ArmChoice(b).Some?
    ensures chosen ==> codec.enc == ArmChoice(b).value && codec.Matched()
    ensures !chosen ==> codec.enc == old(codec.enc) && codec.dec == old(codec.dec)
  {
    if b.armNeon && ((b.aarch64 && b.haveNeon64) || b.haveNeon32) {
      if b.aarch64 && b.haveNeon64 {
        codec.enc := Neon64;
        codec.dec := Neon64;
      } else {
        codec.enc := Neon32;
        codec.dec := Neon32;
      }
      return true;
    }
    return false;
  }

  /** codec_choose_x86 */
  method CodecChooseX86(codec: Codec, b: Build, cpu: Cpu) returns (chosen: bool)
    modifies codec
    ensures chosen == X86Choice(b, cpu).Some?
    ensures chosen ==> codec.enc == X86Choice(b, cpu).value && codec.Matched()
    ensures !chosen ==> codec.enc == old(codec.enc) && codec.dec == old(codec.dec)
  {
    if !X86Simd(b) {
      return false;
    }
    chosen := ChooseAvxFamily(codec, b, cpu);
    if chosen {
      return;
    }
    chosen := ChooseSseFamily(codec, b, cpu);
  }

  /**
   * The AVX-family part of codec_choose_x86: behind the gate, AVX512,
   * then AVX2, then AVX.  When it binds nothing, none of the three is usable.
   */
  method ChooseAvxFamily(codec: Codec, b: Build, cpu: Cpu) returns (chosen: bool)
    requires X86Simd(b)
    modifies codec
    ensures chosen ==> X86Choice(b, cpu).Some? && codec.enc == X86Choice(b, cpu).value && codec.Matched()
    ensures !chosen ==> !Usable(Avx512, b, cpu) && !Usable(Avx2, b, cpu) && !Usable(Avx, b, cpu)
    ensures !chosen ==> codec.enc == old(codec.enc) && codec.dec == old(codec.dec)
  {
    var maxLevel := cpu.maxLevel;
    if b.haveAvx512 || b.haveAvx2 || b.haveAvx {
      if maxLevel >= 1 {
        var ecx := cpu.leaf1Ecx;
        if HasBit(ecx, BitXsaveXrstore) {
          var xcrMask := cpu.xcr0;
          if HasBit64(xcrMask, XcrXmmAndYmmStateEnabledByOs) {
            if b.haveAvx512 && maxLevel >= 7 {
              var ebx7, ecx7 := cpu.leaf7Ebx, cpu.leaf7Ecx;
              if HasBit(ebx7, BitAvx512vl) && HasBit(ecx7, BitAvx512vbmi) {
                X86ChoiceIs(b, cpu, 0);
                codec.enc := Avx512;
                codec.dec := Avx512;
                return true;
              }
            }
            if b.haveAvx2 && maxLevel >= 7 {
              var ebx7 := cpu.leaf7Ebx;
              if HasBit(ebx7, BitAvx2) {
                X86ChoiceIs(b, cpu, 1);
                codec.enc := Avx2;
                codec.dec := Avx2;
                return true;
              }
            }
            if b.haveAvx {
              ecx := cpu.leaf1Ecx;
              if HasBit(ecx, BitAvx) {
                X86ChoiceIs(b, cpu, 2);
                codec.enc := Avx;
                codec.dec := Avx;
                return true;
              }
            }
          }
        }
      }
    }
    return false;
  }

  /**
   * The SSE-family part of codec_choose_x86, reached when no AVX-family
   * tier is usable: SSE4.2, then SSE4.1, then SSSE3.
   */
  method ChooseSseFamily(codec: Codec, b: Build, cpu: Cpu) returns (chosen: bool)
    requires X86Simd(b)
    requires !Usable(Avx512, b, cpu) && !Usable(Avx2, b, cpu) && !Usable(Avx, b, cpu)
    modifies codec
    ensures chosen == X86Choice(b, cpu).Some?
    ensures chosen ==> codec.enc == X86Choice(b, cpu).value && codec.Matched()
    ensures !chosen ==> codec.enc == old(codec.enc) && codec.dec == old(codec.dec)
  {
    var maxLevel := cpu.maxLevel;
    if b.haveSse42 && maxLevel >= 1 {
      if HasBit(cpu.leaf1Ecx, BitSse42) {
        X86ChoiceIs(b, cpu, 3);
        codec.enc := Sse42;
        codec.dec := Sse42;
        return true;
      }
    }
    if b.haveSse41 && maxLevel >= 1 {
      if HasBit(cpu.leaf1Ecx, BitSse41) {
        X86ChoiceIs(b, cpu, 4);
        codec.enc := Sse41;
        codec.dec := Sse41;
        return true;
      }
    }
    if b.haveSsse3 && maxLevel >= 1 {
      if HasBit(cpu.leaf1Ecx, BitSsse3) {
        X86ChoiceIs(b, cpu, 5);
        codec.enc := Ssse3;
        codec.dec := Ssse3;
        return true;
      }
    }
    X86ChoiceIs(b, cpu, 6);
    return false;
  }

  /** base64_codec_choose: always leaves a matched pair, the one Select names. */
  method CodecChoose(codec: Codec, fb: ForceBits, flags: bv32, b: Build, cpu: Cpu)
    modifies codec
    ensures codec.enc == Select(fb, flags, b, cpu) && codec.Matched()
  {
    var chosen := CodecChooseForced(codec, fb, flags);
    if chosen {
      return;
    }
    chosen := CodecChooseArm(codec, b);
    if chosen {
      return;
    }
    chosen := CodecChooseX86(codec, b, cpu);
    if chosen {
      return;
    }
    codec.enc := Plain;
    codec.dec := Plain;
  }
}
