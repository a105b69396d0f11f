/** The `cfg`-gated instruction-set enumeration and detector of the library crate's utils.
    Each variant exists only on the targets its `#[cfg]` names; `DeclaredOn` records that. */
module SimdDetect {
  import ArchUtils

  /** The x86 extensions strongest first, then the vector unit of each other architecture
      (aarch64, MIPS, PowerPC, RISC-V), then the absence of one. Vsx is the second PowerPC unit. */
  datatype SimdInstructionSet =
    | AVX512 | AVX2 | AVX | SSE4_2 | SSE4_1 | SSE2
    | Neon
    | MSA
    | Altivec
    | Vsx
    | RVV
    | None

  predicate IsX86(targetArch: string) {
    targetArch == "x86" || targetArch == "x86_64"
  }

  predicate IsMips(targetArch: string) {
    targetArch == "mips" || targetArch == "mips64"
  }

  predicate IsPowerPC(targetArch: string) {
    targetArch == "powerpc" || targetArch == "powerpc64"
  }

  predicate IsRiscV(targetArch: string) {
    targetArch == "riscv32" || targetArch == "riscv64"
  }

  /** The `#[cfg(...)]` on each variant, as written: AVX512, AVX2 and AVX exist on x86_64 only. */
  predicate DeclaredOn(s: SimdInstructionSet, targetArch: string): (declared: bool)
    ensures s == None ==> declared
    ensures targetArch == "x86" ==> (declared <==> s in {SSE4_2, SSE4_1, SSE2, None})
  {
    match s
    case AVX512 | AVX2 | AVX => targetArch == "x86_64"
    case SSE4_2 | SSE4_1 | SSE2 => IsX86(targetArch)
    case Neon => targetArch == "aarch64"
    case MSA => IsMips(targetArch)
    case Altivec => IsPowerPC(targetArch)
    case Vsx => targetArch == "powerpc64"
    case RVV => IsRiscV(targetArch)
    case None => true
  }

  /** The corrected `#[cfg(...)]`: AVX512, AVX2 and AVX exist on 32-bit x86 as well,
      as the detector's x86 branch needs. */
  predicate DeclaredOnFixed(s: SimdInstructionSet, targetArch: string) {
    match s
    case AVX512 | AVX2 | AVX => IsX86(targetArch)
    case _ => DeclaredOn(s, targetArch)
  }

  /** `detect_simd_instruction_set`: the first `cfg`-selected branch returns. */
  function Detect(targetArch: string, detected: string -> bool, enabled: string -> bool): (s: SimdInstructionSet)
    ensures s != Vsx
    ensures !IsX86(targetArch) ==> DeclaredOn(s, targetArch)
  {
    if IsX86(targetArch) then
      if detected("avx512f") then AVX512
      else if detected("avx2") then AVX2
      else if detected("avx") then AVX
      else if detected("sse4.2") then SSE4_2
      else if detected("sse4.1") then SSE4_1
      else if detected("sse2") then SSE2
      else None
    else if targetArch == "aarch64" then
      if detected("neon") then Neon else None
    else if IsMips(targetArch) then
      if enabled("msa") then MSA else None
    else if IsPowerPC(targetArch) then
      if enabled("altivec") then Altivec else None
    else if IsRiscV(targetArch) then
      if enabled("rvv") then RVV else None
    else None
  }

  /** With the corrected declarations, every variant the detector returns exists on the target. */
  lemma DetectReturnsDeclaredVariant(targetArch: string, detected: string -> bool, enabled: string -> bool)
    ensures DeclaredOnFixed(Detect(targetArch, detected, enabled), targetArch)
  {
  }

  /** As written, a 32-bit x86 build names `AVX512`, which its `#[cfg]` leaves out there. */
  lemma X86BuildNamesUndeclaredVariant()
    ensures var s := Detect("x86", _ => true, _ => false);
            s == AVX512 && !DeclaredOn(s, "x86")
  {
  }

  /** The variant of the same name in the `main` crate's enumeration. */
  function FromArchUtils(s: ArchUtils.SimdInstructionSet): SimdInstructionSet {
    match s
    case AVX512 => AVX512
    case AVX2 => AVX2
    case AVX => AVX
    case SSE4_2 => SSE4_2
    case SSE4_1 => SSE4_1
    case SSE2 => SSE2
    case Neon => Neon
    case MSA => MSA
    case Altivec => Altivec
    case RVV => RVV
    case None => None
  }

  /** Outside 32-bit x86 the two detectors agree variant for variant. */
  lemma DetectorsAgree(targetArch: string, detected: string -> bool, enabled: string -> bool)
    requires targetArch != "x86"
    ensures Detect(targetArch, detected, enabled)
         == FromArchUtils(ArchUtils.DetectSimdInstructionSet(targetArch, detected, enabled))
  {
    var arch := ArchUtils.DetectCpuArchitecture(targetArch);
    if IsX86(targetArch) {
      assert arch == ArchUtils.X86_64;
    } else if targetArch == "aarch64" {
      assert arch == ArchUtils.AArch64;
    } else if IsMips(targetArch) {
      assert arch == ArchUtils.Mips;
    } else if IsPowerPC(targetArch) {
      assert arch == ArchUtils.PowerPC;
    } else if IsRiscV(targetArch) {
      assert arch == ArchUtils.RiscV;
    } else {
      assert arch == ArchUtils.Unknown;
    }
  }

  /** On x86-64 the chain is the first-detected rule over the shared priority list. */
  lemma X86ChainIsPriority(detected: string -> bool, enabled: string -> bool)
    ensures Detect("x86_64", detected, enabled) == FromArchUtils(ArchUtils.FirstDetected(ArchUtils.X86Priority, detected))
  {
    DetectorsAgree("x86_64", detected, enabled);
    ArchUtils.X86ChainIsPriority(detected, enabled);
  }
}
