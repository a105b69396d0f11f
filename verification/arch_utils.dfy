/** CPU architecture and SIMD instruction-set detection (the `main` crate's arch_utils).
    The build's `target_arch` is a string, the run-time feature queries
    (`is_x86_feature_detected!`, `is_aarch64_feature_detected!`) are `detected`, and the
    compile-time `cfg!(target_feature = ...)` flags are `enabled`. */
module ArchUtils {

  datatype CpuArchitecture = X86_64 | AArch64 | Mips | PowerPC | RiscV | Unknown

  /** The x86 extensions strongest first, then the vector unit of each other architecture
      (aarch64, MIPS, PowerPC, RISC-V), then the absence of one. */
  datatype SimdInstructionSet =
    | AVX512 | AVX2 | AVX | SSE4_2 | SSE4_1 | SSE2
    | Neon
    | MSA
    | Altivec
    | RVV
    | None

  /** `detect_cpu_architecture`. */
  function DetectCpuArchitecture(targetArch: string): (a: CpuArchitecture)
    ensures a == X86_64 <==> targetArch == "x86_64"
    ensures a == AArch64 <==> targetArch == "aarch64"
    ensures a == Mips <==> targetArch == "mips" || targetArch == "mips64"
    ensures a == PowerPC <==> targetArch == "powerpc" || targetArch == "powerpc64"
    ensures a == RiscV <==> targetArch == "riscv32" || targetArch == "riscv64"
  {
    if targetArch == "x86_64" then X86_64
    else if targetArch == "aarch64" then AArch64
    else if targetArch == "mips" || targetArch == "mips64" then Mips
    else if targetArch == "powerpc" || targetArch == "powerpc64" then PowerPC
    else if targetArch == "riscv32" || targetArch == "riscv64" then RiscV
    else Unknown
  }

  /** The x86 features in the order the detector tries them, strongest first. */
  const X86Priority: seq<(string, SimdInstructionSet)> := [
    ("avx512f", AVX512), ("avx2", AVX2), ("avx", AVX),
    ("sse4.2", SSE4_2), ("sse4.1", SSE4_1), ("sse2", SSE2)
  ]

  /** Reference for a priority chain: the set of the first detected feature in the list, else None. */
  function FirstDetected(priority: seq<(string, SimdInstructionSet)>, detected: string -> bool): (s: SimdInstructionSet)
    requires forall j :: 0 <= j < |priority| ==> priority[j].1 != None
    ensures s == None <==> forall j :: 0 <= j < |priority| ==> !detected(priority[j].0)
    ensures s != None ==> exists j :: 0 <= j < |priority| && priority[j].1 == s && detected(priority[j].0)
                                      && forall i :: 0 <= i < j ==> !detected(priority[i].0)
  {
    if |priority| == 0 then None
    else if detected(priority[0].0) then priority[0].1
    else
      var rest := FirstDetected(priority[1..], detected);
      assert forall j :: 1 <= j < |priority| ==> priority[j] == priority[1..][j - 1];
      rest
  }

  /** `detect_simd_instruction_set`. */
  function DetectSimdInstructionSet(targetArch: string, detected: string -> bool, enabled: string -> bool): (s: SimdInstructionSet)
    ensures s == None || BelongsTo(s, DetectCpuArchitecture(targetArch))
  {
    match DetectCpuArchitecture(targetArch)
    case X86_64 =>
      if detected("avx512f") then AVX512
      else if detected("avx2") then AVX2
      else if detected("avx") then AVX
      else if detected("sse4.2") then SSE4_2
      else if detected("sse4.1") then SSE4_1
      else if detected("sse2") then SSE2
      else None
    case AArch64 =>
      if targetArch == "aarch64" then (if detected("neon") then Neon else None)
      else None
    case Mips => if enabled("msa") then MSA else None
    case PowerPC => if enabled("altivec") then Altivec else None
    case RiscV => if enabled("rvv") then RVV else None
    case Unknown => None
  }

  /** The instruction sets that belong to an architecture. */
  predicate BelongsTo(s: SimdInstructionSet, arch: CpuArchitecture) {
    match arch
    case X86_64 => s in {AVX512, AVX2, AVX, SSE4_2, SSE4_1, SSE2}
    case AArch64 => s == Neon
    case Mips => s == MSA
    case PowerPC => s == Altivec
    case RiscV => s == RVV
    case Unknown => false
  }

  /** On x86-64 the detector returns the strongest detected feature: the if-chain is the
      first-detected rule over the priority list avx512f > avx2 > avx > sse4.2 > sse4.1 > sse2. */
  lemma X86ChainIsPriority(detected: string -> bool, enabled: string -> bool)
    ensures DetectSimdInstructionSet("x86_64", detected, enabled) == FirstDetected(X86Priority, detected)
  {
    var p := X86Priority;
    assert p[1..] == [("avx2", AVX2), ("avx", AVX), ("sse4.2", SSE4_2), ("sse4.1", SSE4_1), ("sse2", SSE2)];
    assert p[2..] == p[1..][1..];
    assert p[3..] == p[2..][1..];
    assert p[4..] == p[3..][1..];
    assert p[5..] == p[4..][1..];
    assert p[6..] == p[5..][1..] == [];
    if !detected("avx512f") && !detected("avx2") && !detected("avx")
       && !detected("sse4.2") && !detected("sse4.1") && !detected("sse2") {
      assert FirstDetected(p[6..], detected) == None;
    }
  }

  /** The non-x86 rules: each architecture's vector extension if its flag is set, else None. */
  lemma OtherArchitectures(targetArch: string, detected: string -> bool, enabled: string -> bool)
    ensures var s := DetectSimdInstructionSet(targetArch, detected, enabled);
      && (targetArch == "aarch64" ==> (s == Neon <==> detected("neon")) && (s == Neon || s == None))
      && (targetArch in ["mips", "mips64"] ==> (s == MSA <==> enabled("msa")) && (s == MSA || s == None))
      && (targetArch in ["powerpc", "powerpc64"] ==> (s == Altivec <==> enabled("altivec")) && (s == Altivec || s == None))
      && (targetArch in ["riscv32", "riscv64"] ==> (s == RVV <==> enabled("rvv")) && (s == RVV || s == None))
      && (DetectCpuArchitecture(targetArch) == Unknown ==> s == None)
  {
  }
}
