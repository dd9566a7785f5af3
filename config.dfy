/**
 * The compile-time build configuration the library is compiled under:
 * the target-architecture macros, the BASE64_HAVE_* tier switches,
 * BASE64_WORDSIZE and the compiler family.  In the C sources these are
 * preprocessor conditions; here they are the fields of one record, so that
 * every `#if` becomes an ordinary test on a value.
 */
module Config {
  import opened Wrappers

  datatype Build = Build(
    x86: bool,                 // __x86_64__ || __i386__ || _M_X86 || _M_X64
    armNeon: bool,             // __ARM_NEON__ || __ARM_NEON
    aarch64: bool,             // __aarch64__
    haveSsse3: bool,           // BASE64_HAVE_SSSE3
    haveSse41: bool,           // BASE64_HAVE_SSE41
    haveSse42: bool,           // BASE64_HAVE_SSE42
    haveAvx: bool,             // BASE64_HAVE_AVX
    haveAvx2: bool,            // BASE64_HAVE_AVX2
    haveAvx512: bool,          // BASE64_HAVE_AVX512
    haveNeon32: bool,          // BASE64_HAVE_NEON32
    haveNeon64: bool,          // BASE64_HAVE_NEON64
    wordSize: nat,             // BASE64_WORDSIZE
    gnuOrClang: bool,          // __GNUC__ || __clang__
    avx2UseAsm: Option<bool>)  // BASE64_AVX2_USE_ASM when predefined by the build

  /** BASE64_X86_SIMD: an x86 target with at least one x86 SIMD tier compiled in. */
  predicate X86Simd(b: Build)
  {
    b.x86 && (b.haveSsse3 || b.haveSse41 || b.haveSse42 || b.haveAvx || b.haveAvx2 || b.haveAvx512)
  }
}
