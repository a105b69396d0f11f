# fastinference: a Dafny model of the linear-score evaluation engine

fastinference evaluates linear classifiers over batches of feature vectors. Its two
models are logistic regression and a linear SVM. A model holds a weight vector, a bias
and an *optimization strategy*. The strategy computes `Σ wᵢ·xᵢ + bias`, and the
logistic strategies apply `sigmoid` to it. There are four strategies:

- `Sequential`, the zipped multiply-and-sum reference;
- `SSE` (4 lanes) and `AVX` (8 lanes) on x86-64;
- `NEON` (4 fused multiply-add lanes) on aarch64, with a scalar fallback.

Each vector strategy runs a main loop over whole lane groups, then a scalar loop over the
remainder. It then sums the lanes left to right and adds the remainder and the bias.
Around this engine sit a SIMD feature detector and two command-line programs. The
programs group file bytes into 4-byte words, split the parameters into weights and bias,
cut the data into rows and write one label per row.

This project models the engine, the model wrappers, both detectors and the pure batch
logic of both programs. All arithmetic is exact, over `real`. The main results:

- **Every strategy agrees with the reference.** `SseForward`, `AvxForward`,
  `NeonForward`, `ScalarForward` and `SequentialForward` all return
  `Sigmoid(exp, Dot(weights, input) + bias)`. So every strategy applies the same
  activation to the same score, whatever the alignment and whatever the CPU reports.
- **The lane kernel partitions the indices.** `Lanes.AccumulateBlocks` exits at
  `split == width * (D / width)`. Lane `k` then holds exactly the products whose index
  is `k` modulo `width`. The lanes together hold the prefix sum. The remainder loop
  covers exactly `[split, D)`.
- **The wrappers check the dimension.** `predict` panics exactly when the lengths
  differ. The SVM label is `1` exactly when the margin is positive.
- **The detector picks the strongest feature.** On x86-64 it returns the first detected
  feature in priority order, and it never returns an instruction set of another
  architecture.
- **The row loops keep row order.** Each program writes one line per whole row, in row
  order, and panics on a short last row. In exact arithmetic, given an increasing `exp`
  with `exp(0) = 1`, the logistic and SVM programs put the same rows in the positive class.

`exp` is a parameter of type `real -> Positive`. `Sigmoid(exp, x)` is `1 / (1 + exp(-x))`,
as the source writes it. The lemmas about sigmoid's shape also assume `ExpLike(exp)`:
`exp(0) = 1` and `exp` strictly increasing. Other inputs are parameters too:

- the CPU feature queries (`detected`);
- the `cfg!(target_feature)` flags (`enabled`);
- the build's `target_arch`, as a string;
- the slice addresses, the `aarch64` build flag and the run-time `neon` query (`Logistic.CallEnv`);
- `f32::from_le_bytes` (`decode`).

A Rust panic is a value: `Outcomes.Result.Panic`, with the reason in `Failure`. A program
run is a `Batch.Run`. It records the lines written before the run ended and how it ended.
`File::write_all` is unbuffered, so the lines written before a panic stay in the output
file.

`LogisticRegression::new` and `SupportVectorMachine::new` store their arguments
unchanged. The model has no function for them: they are the datatype constructors
`Logistic.LogisticRegression` and `Svm.SupportVectorMachine`.

Two behaviours of the code are worth stating outright:

- `SSE` and `AVX` do no run-time feature check. Only `NEON::forward` checks, and it
  falls back to `scalar_forward`.
- When the data length is not a multiple of the row length, the program writes the
  whole rows and then panics in `predict` on the short last row.

## Model

| member | source | states |
|---|---|---|
| DotProduct.ZipDot | main/src/models/logistic/base.rs:31-34 | the zip-map-sum chain is the dot product over the first min(len(weights), len(input)) pairs |
| DotProduct.SplitSum | src/models/logistic/simd_x86.rs:59-69 | the sum over [0, D) is the sum over [0, split) plus the sum over [split, D): splitting at the main-loop exit loses no index and counts none twice |
| DotProduct.DotIgnoresSurplusInput | src/models/logistic/simd_x86.rs:34 | D is weights.len(); input entries past D never contribute to the score |
| DotProduct.ZeroWeightsGiveZero | main/src/models/svm/base.rs:25-29 | with all-zero weights the dot product is 0, so the score is exactly the bias |
| Activation.Sigmoid | src/models/logistic/simd_x86.rs:129-131 | 1 / (1 + exp(-x)) lies strictly between 0 and 1 for a positive exp |
| Activation.SigmoidStrictlyIncreasing | main/src/models/logistic/simd_arm.rs:69-71 | sigmoid is strictly increasing when exp is |
| Activation.SigmoidAtZero | src/models/logistic/simd_x86.rs:129-131 | sigmoid(0) = 1/2 when exp(0) = 1 |
| Activation.SigmoidAboveHalf | main/src/main.rs:199-200 | prob > 0.5 holds exactly when the score is positive |
| Lanes.Load | src/models/logistic/simd_x86.rs:45-53 | _mm_load_ps, _mm_loadu_ps (and vld1q_f32) at i yield the L lanes x[i], …, x[i+L-1], whichever load is used |
| Lanes.Step | src/models/logistic/simd_x86.rs:47 | both _mm_add_ps(_mm_mul_ps) and NEON's vfmaq_f32 add x[i+k]·w[i+k] to lane k and change nothing else |
| Lanes.AccumulateStep | src/models/logistic/simd_x86.rs:44-49 | one trip of the main loop keeps every lane's share and the lane total equal to the prefix sum |
| Lanes.AccumulateBlocks | src/models/logistic/simd_x86.rs:35-57 | the main loop exits at i = L·(D/L); lane k holds exactly the products at indices ≡ k mod L below it; the lanes sum to Σ over that prefix |
| Lanes.SumTail | src/models/logistic/simd_x86.rs:59-64 | the remainder loop adds each index of [split, D) exactly once |
| Lanes.BlockedScore | src/models/logistic/simd_x86.rs:34-69 | reduced lanes + remainder + bias equals the sequential Σ wᵢxᵢ + bias |
| Lanes.ResidueBlock | src/models/logistic/simd_x86.rs:44-48 | one group of L elements adds exactly one product to each residue class mod L |
| Lanes.LaneIsResidueClass | src/models/logistic/simd_x86.rs:44-56 | the stride-L share of lane k is the sum over the indices congruent to k mod L |
| SimdX86.SseForward | src/models/logistic/simd_x86.rs:32-73 | SSE returns sigmoid(Σ wᵢxᵢ + bias) whatever the two addresses, so the aligned and unaligned branches agree |
| SimdX86.AvxForward | src/models/logistic/simd_x86.rs:82-125 | AVX returns sigmoid(Σ wᵢxᵢ + bias) whatever the two addresses |
| SimdArm.ScalarForward | main/src/models/logistic/simd_arm.rs:60-66 | scalar_forward is sigmoid of the zipped dot product plus the bias |
| SimdArm.NeonForward | main/src/models/logistic/simd_arm.rs:16-58 | on every path (non-aarch64 build, neon missing, neon present) NEON returns the scalar_forward value |
| Logistic.SequentialForward | main/src/models/logistic/base.rs:30-36 | 1 / (1 + exp(-dot - bias)) is sigmoid(dot + bias) |
| Logistic.Forward | main/src/models/logistic/base.rs:23-25 | every strategy returns the same sigmoid of the same score |
| Logistic.Predict | main/src/models/logistic/base.rs:55-58 | panics iff weights.len() != input.len(); otherwise the strategy's probability unchanged |
| Svm.SequentialForward | main/src/models/svm/base.rs:24-30 | the raw margin Σ wᵢxᵢ + bias with no activation |
| Svm.Forward | main/src/models/svm/base.rs:17-19 | the strategy returns the raw margin |
| Svm.Label | main/src/models/svm/base.rs:52 | the label is 1 or -1, and 1 exactly when the margin is > 0 |
| Svm.Predict | main/src/models/svm/base.rs:49-53 | panics iff the dimensions differ; otherwise a label in {-1, 1} that is 1 iff the margin is > 0 |
| ArchUtils.DetectCpuArchitecture | main/src/utils/arch_utils.rs:33-47 | each architecture is chosen by exactly its target_arch names; anything else is Unknown |
| ArchUtils.FirstDetected | main/src/utils/arch_utils.rs:54-68 | a priority chain returns None iff nothing is detected, otherwise the first detected entry, none before it detected |
| ArchUtils.X86ChainIsPriority | main/src/utils/arch_utils.rs:52-70 | on x86-64 the result is the first detected of avx512f > avx2 > avx > sse4.2 > sse4.1 > sse2, else None |
| ArchUtils.DetectSimdInstructionSet | main/src/utils/arch_utils.rs:50-111 | the result is None or an instruction set of the detected architecture; the X86ChainIsPriority and OtherArchitectures lemmas pin down each arm |
| ArchUtils.OtherArchitectures | main/src/utils/arch_utils.rs:71-109 | AArch64 gives Neon iff neon is detected; Mips, PowerPC and RiscV give MSA, Altivec and RVV iff the target feature is enabled; Unknown gives None |
| SimdDetect.DeclaredOn | src/utils/mod.rs:3-41 | None exists on every target; on 32-bit x86 exactly SSE4_2, SSE4_1, SSE2 and None exist |
| SimdDetect.Detect | src/utils/mod.rs:48-100 | never returns the declared Vsx variant; outside the x86 targets every result is declared on the build target |
| SimdDetect.X86BuildNamesUndeclaredVariant | src/utils/mod.rs:4-11 | on a 32-bit x86 build the detector names AVX512, which is not declared there |
| SimdDetect.DetectReturnsDeclaredVariant | src/utils/mod.rs:48-100 | with the variants declared for both x86 targets, every result exists on the build's target |
| SimdDetect.DetectorsAgree | src/utils/mod.rs:48-100 | outside 32-bit x86 the cfg-gated detector returns the same variant as the arch_utils detector |
| SimdDetect.X86ChainIsPriority | src/utils/mod.rs:50-64 | on x86-64 the chain is the first-detected rule over avx512f > avx2 > avx > sse4.2 > sse4.1 > sse2 |
| SrcCli.Display | src/main.rs:23-30 | the name is "Logistic" exactly for the logistic model and "SVM" exactly for the SVM |
| SrcCli.DisplayDistinguishes | src/main.rs:23-30 | the two model types display as different names |
| Batch.GroupWords | main/src/main.rs:170-172 | panics iff the byte count is not a multiple of 4; word k is bytes 4k..4k+3 |
| Batch.GroupUngroup | main/src/main.rs:170-172 | grouping the bytes of any word sequence returns those words |
| Batch.UngroupGroup | main/src/main.rs:170-172 | the grouped words spell out the whole byte stream |
| Batch.SplitParams | main/src/main.rs:175-176 | panics iff the parameters are empty; otherwise weights ++ [bias] is the parameter vector |
| Batch.NumSamples | main/src/main.rs:190-191 | panics iff there are no features; otherwise the number of whole rows in the data |
| Batch.Chunks | main/src/main.rs:198 | the rows concatenate to the data; every row is non-empty and at most num_features long, all but the last exactly that long |
| Batch.ChunkCount | main/src/main.rs:198 | q·n + m elements (m < n) give q full rows, plus one row of m when m > 0 |
| Batch.ChunkShape | main/src/main.rs:190-198 | the row count is len/n when n divides len, else len/n + 1 with a last row of len mod n |
| Batch.LogisticClass | main/src/main.rs:200 | the prediction is 0 or 1, and 1 exactly when the probability is > 0.5 |
| Batch.Line | main/src/main.rs:201 | the written line is "1\n", "0\n" or "-1\n" exactly for the prediction 1, 0 or -1 |
| Batch.ClassifyLogisticRows | main/src/main.rs:198-201 | one line per row in order, "1" iff the probability is > 0.5, stopping with a dimension panic at the first row of the wrong length |
| Batch.ClassifyLogistic | main/src/main.rs:196-203 | the logistic loop over data.chunks(num_features) |
| Batch.ClassifySvmRows | main/src/main.rs:207-210 | one line per row in order holding predict's label, stopping with a dimension panic at the first row of the wrong length |
| Batch.ClassifySvm | main/src/main.rs:204-211 | the SVM loop over data.chunks(num_features) |
| Batch.RunOverChunks | main/src/main.rs:190-201 | a row loop writes len(data)/D lines and finishes iff D divides len(data); otherwise the short last row panics |
| Batch.LogisticAndSvmAgree | main/src/main.rs:198-209 | in exact arithmetic, for each row the logistic program writes "1" iff the SVM program writes "1" |
| Batch.LoadInputs | main/src/main.rs:164-191 | the panics of loading in program order (short parameter word, no parameters, short data word, zero features); otherwise the decoded weights, bias and data |
| MainCli.Execute | main/src/main.rs:28-219 | a load panic ends the run with nothing written; benchmark mode writes nothing and hands over only for logistic/x86; otherwise the logistic or SVM row loop; an unknown model type writes nothing |
| SrcCli.Execute | src/main.rs:56-197 | a load panic ends the run; benchmark mode hands logistic over to the benchmarks and fails SVM with "Benchmarking not yet implemented for SVM"; otherwise the row loops |

## Left out

- IEEE-754 `f32` arithmetic. Everything is exact `real`, so summation order and rounding play no part. Float differences between strategies become exact equality.
- Batch.LogisticAndSvmAgree: holds in exact arithmetic only. In `f32` a positive score below about 1e-7 makes `(-x).exp()` round to 1.0, so sigmoid is exactly 0.5. The logistic program then writes "0" while the SVM program writes "1".
- `exp` is a parameter. Overflow of `exp(-x)` for very large or very small scores is not modelled.
- SIMD intrinsics are modelled only by their lane-wise effect. `Lanes.Load` ignores the load kind: both loads read the same elements. `_mm_load_ps` faulting on a misaligned address cannot happen, because the source only takes that branch when both addresses are aligned.
- SimdX86.SseForward, SimdX86.AvxForward and SimdArm.NeonForward require `len(weights) <= len(input)`. With a shorter input the source panics on `&input[i]` or reads past the slice, which is undefined behaviour. `predict` never makes such a call.
- The `cfg` gating of strategy types is not modelled. SSE and AVX exist only on x86-64 builds, and the NEON vector impl only on aarch64 builds. `Logistic.Strategy` offers all four.
- `is_*_feature_detected!`, `cfg!(target_arch)` and `cfg!(target_feature)` are parameters.
- `f32::from_le_bytes` is the `decode` parameter. Only the 4-byte grouping is modelled.
- File opening, reading and creating `output`; clap parsing; `println!`/`eprintln!`; `print_system_info`. These are I/O.
- Both programs read the two files a second time after the benchmark check. The model reads once and takes the second read to return the same bytes.
- The benchmarks are left out: `run_benchmarks` and `calculate_stats` in main/src/benchmarks/logistic.rs, and the inline ARM benchmark branches. A hand-over to the benchmarks is the status `BenchmarkDelegated`. The ARM branches use names that are not defined, so they do not compile.
- Builds other than x86-64 of the two programs are not modelled. src/main.rs imports `File` only on x86-64. On aarch64, main/src/main.rs's benchmark branch does not compile. So `bail!("Unknown/unsupported arch")` cannot be reached, and `MainCli.Execute` treats `--arch arm` as the x86-64 build's "not available" message.
- `params.len() - 1` on empty parameters is the `EmptyParameters` panic. A debug build panics on the subtraction overflow and a release build on the index; either way the run stops.
- The `--trials` option feeds only the benchmarks.
- src/models/logistic/mod.rs only wires modules together.

## Findings

| source | as written | input that shows it | evidently intended | confidence | as-written member | corrected member |
|---|---|---|---|---|---|---|
| src/utils/mod.rs:4-11 | `AVX512`, `AVX2` and `AVX` are declared only under `cfg(target_arch = "x86_64")`. The detector's x86 branch is compiled for `target_arch = "x86"` as well, and it names all three. | a build for `target_arch = "x86"`: the detector returns `AVX512` when avx512f is detected, but on that target the variant does not exist, so the crate does not compile | declare the three variants under `any(target_arch = "x86", target_arch = "x86_64")`, like the SSE variants | high, not executed | SimdDetect.X86BuildNamesUndeclaredVariant | SimdDetect.DetectReturnsDeclaredVariant |
