/** The lane-blocked accumulation shared by the SSE, AVX and NEON strategies:
    a main loop over whole groups of `width` lanes, a scalar loop over the
    remainder, and a left-to-right reduction of the lanes. */
module Lanes {
  import opened DotProduct
  import Division

  /** Which load intrinsic the main loop uses (`_mm_load_ps` or `_mm_loadu_ps`). */
  datatype LoadKind = Aligned | Unaligned

  /** How a lane group is folded into the accumulator:
      `_mm_add_ps(acc, _mm_mul_ps(x, w))` or NEON's fused `vfmaq_f32(acc, x, w)`. */
  datatype LaneUpdate = MulThenAdd | FusedMultiplyAdd

  /** The `width` lanes a vector load reads starting at element i.
      Both load kinds read the same elements; they differ only in the address they accept. */
  function Load(s: seq<real>, i: nat, width: nat, kind: LoadKind): (v: seq<real>)
    requires i + width <= |s|
    ensures |v| == width
    ensures forall k :: 0 <= k < width ==> v[k] == s[i + k]
  {
    s[i..i + width]
  }

  function LaneMul(a: seq<real>, b: seq<real>): seq<real>
    requires |a| == |b|
  {
    seq(|a|, k requires 0 <= k < |a| => a[k] * b[k])
  }

  function LaneAdd(a: seq<real>, b: seq<real>): seq<real>
    requires |a| == |b|
  {
    seq(|a|, k requires 0 <= k < |a| => a[k] + b[k])
  }

  function LaneFma(a: seq<real>, b: seq<real>, c: seq<real>): seq<real>
    requires |a| == |b| == |c|
  {
    seq(|a|, k requires 0 <= k < |a| => a[k] + b[k] * c[k])
  }

  /** One accumulation step. In exact arithmetic both update kinds add x[k] * w[k] into lane k. */
  function Step(acc: seq<real>, xv: seq<real>, wv: seq<real>, update: LaneUpdate): (r: seq<real>)
    requires |xv| == |acc| && |wv| == |acc|
    ensures |r| == |acc|
    ensures forall k :: 0 <= k < |acc| ==> r[k] == acc[k] + xv[k] * wv[k]
  {
    match update
    case MulThenAdd => LaneAdd(acc, LaneMul(xv, wv))
    case FusedMultiplyAdd => LaneFma(acc, xv, wv)
  }

  /** What lane k holds after the main loop has consumed the first i elements
      (i a multiple of width): the products at k, k + width, k + 2 * width, ... below i. */
  ghost function LaneDot(w: seq<real>, x: seq<real>, width: nat, k: nat, i: nat): real
    requires k < width && i <= |w| && i <= |x|
    decreases i
  {
    if i < width then 0.0 else LaneDot(w, x, width, k, i - width) + x[i - width + k] * w[i - width + k]
  }

  /** The sum of the products below i whose index is congruent to k modulo width. */
  ghost function ResidueDot(w: seq<real>, x: seq<real>, width: nat, k: nat, i: nat): real
    requires 0 < width && i <= |w| && i <= |x|
  {
    if i == 0 then 0.0
    else ResidueDot(w, x, width, k, i - 1) + (if (i - 1) % width == k then x[i - 1] * w[i - 1] else 0.0)
  }

  /** The main-loop invariant: every lane holds its share and the lanes together hold the prefix. */
  ghost predicate Accumulated(w: seq<real>, x: seq<real>, width: nat, acc: seq<real>, i: nat) {
    && |acc| == width
    && i <= |w| && i <= |x|
    && (forall k :: 0 <= k < width ==> acc[k] == LaneDot(w, x, width, k, i))
    && Sum(acc) == SumOfProducts(w, x, 0, i)
  }

  /** One trip of the main loop keeps the invariant. */
  lemma AccumulateStep(w: seq<real>, x: seq<real>, width: nat, acc: seq<real>, i: nat, kind: LoadKind, update: LaneUpdate)
    requires 0 < width && i + width <= |w| && i + width <= |x|
    requires Accumulated(w, x, width, acc, i)
    ensures Accumulated(w, x, width, Step(acc, Load(x, i, width, kind), Load(w, i, width, kind), update), i + width)
  {
    var acc' := Step(acc, Load(x, i, width, kind), Load(w, i, width, kind), update);
    StepKeepsLanes(w, x, width, acc, i, acc');
    StepKeepsSum(w, x, width, acc, i, acc');
  }

  /** Each lane gains the product of its own position in the block. */
  lemma StepKeepsLanes(w: seq<real>, x: seq<real>, width: nat, acc: seq<real>, i: nat, acc': seq<real>)
    requires 0 < width && i + width <= |w| && i + width <= |x|
    requires |acc| == width && |acc'| == width
    requires forall k :: 0 <= k < width ==> acc[k] == LaneDot(w, x, width, k, i)
    requires forall k :: 0 <= k < width ==> acc'[k] == acc[k] + x[i + k] * w[i + k]
    ensures forall k :: 0 <= k < width ==> acc'[k] == LaneDot(w, x, width, k, i + width)
  {
    forall k | 0 <= k < width
      ensures acc'[k] == LaneDot(w, x, width, k, i + width)
    {
      assert LaneDot(w, x, width, k, i + width) == LaneDot(w, x, width, k, i) + x[i + k] * w[i + k];
    }
  }

  /** The lane total gains exactly the block's products. */
  lemma StepKeepsSum(w: seq<real>, x: seq<real>, width: nat, acc: seq<real>, i: nat, acc': seq<real>)
    requires i + width <= |w| && i + width <= |x|
    requires |acc| == width && |acc'| == width
    requires Sum(acc) == SumOfProducts(w, x, 0, i)
    requires forall k :: 0 <= k < width ==> acc'[k] == acc[k] + x[i + k] * w[i + k]
    ensures Sum(acc') == SumOfProducts(w, x, 0, i + width)
  {
    var p := seq(width, k requires 0 <= k < width => x[i + k] * w[i + k]);
    SumLanewise(acc, p, acc');
    BlockSum(w, x, i, p);
    SplitSum(w, x, 0, i, i + width);
  }

  /** The main loop over whole lane groups: exits at split == width * (D / width),
      each lane k having received exactly the products at indices k, k + width, ... below split. */
  method AccumulateBlocks(weights: seq<real>, input: seq<real>, width: nat, kind: LoadKind, update: LaneUpdate)
    returns (acc: seq<real>, split: nat)
    requires 0 < width && |weights| <= |input|
    ensures |acc| == width
    ensures split == width * (|weights| / width)
    ensures split <= |weights| < split + width
    ensures forall k :: 0 <= k < width ==> acc[k] == LaneDot(weights, input, width, k, split)
    ensures forall k :: 0 <= k < width ==> acc[k] == ResidueDot(weights, input, width, k, split)
    ensures Sum(acc) == SumOfProducts(weights, input, 0, split)
  {
    acc := seq(width, _ => 0.0);
    StartAccumulated(weights, input, width, acc);
    split := 0;
    ghost var blocks := 0;
    while split + width <= |weights|
      invariant split == blocks * width
      invariant Accumulated(weights, input, width, acc, split)
      decreases |weights| - split
    {
      var xv := Load(input, split, width, kind);
      var wv := Load(weights, split, width, kind);
      AccumulateStep(weights, input, width, acc, split, kind, update);
      acc := Step(acc, xv, wv, update);
      assert (blocks + 1) * width == split + width;
      split := split + width;
      blocks := blocks + 1;
    }
    ExitPoint(|weights|, width, blocks, split);
    LanesAreResidueClasses(weights, input, width, acc, blocks, split);
  }

  /** Zeroed lanes hold the empty prefix. */
  lemma StartAccumulated(w: seq<real>, x: seq<real>, width: nat, acc: seq<real>)
    requires 0 < width && |acc| == width && forall k :: 0 <= k < width ==> acc[k] == 0.0
    ensures Accumulated(w, x, width, acc, 0)
  {
    SumOfZeros(acc);
  }

  /** The main loop stops at the largest multiple of width not above D. */
  lemma ExitPoint(d: nat, width: nat, blocks: nat, split: nat)
    requires 0 < width && split == blocks * width && split <= d < split + width
    ensures split == width * (d / width)
  {
    Division.DivModUnique(d, width, blocks, d - split);
  }

  /** At a multiple of width, every lane of the main loop holds its residue class. */
  lemma LanesAreResidueClasses(w: seq<real>, x: seq<real>, width: nat, acc: seq<real>, blocks: nat, i: nat)
    requires 0 < width && i == blocks * width && Accumulated(w, x, width, acc, i)
    ensures forall k :: 0 <= k < width ==> acc[k] == ResidueDot(w, x, width, k, i)
  {
    forall k | 0 <= k < width
      ensures acc[k] == ResidueDot(w, x, width, k, i)
    {
      LaneIsResidueClass(w, x, width, k, blocks, i);
    }
  }

  /** The scalar loop over the remainder `[start, D)`: each index added once, in order. */
  method SumTail(weights: seq<real>, input: seq<real>, start: nat) returns (tail: real)
    requires start <= |weights| <= |input|
    ensures tail == SumOfProducts(weights, input, start, |weights|)
  {
    tail := 0.0;
    var i := start;
    while i < |weights|
      invariant start <= i <= |weights|
      invariant tail == SumOfProducts(weights, input, start, i)
    {
      tail := tail + input[i] * weights[i];
      i := i + 1;
    }
  }

  /** The whole blocked evaluation before the activation:
      reduced lanes + scalar remainder + bias, which is the sequential Σ w[i] * x[i] + bias. */
  method BlockedScore(weights: seq<real>, input: seq<real>, bias: real, width: nat, kind: LoadKind, update: LaneUpdate)
    returns (sum: real)
    requires 0 < width && |weights| <= |input|
    ensures sum == Dot(weights, input) + bias
  {
    var lanes, split := AccumulateBlocks(weights, input, width, kind, update);
    var sumScalar := SumTail(weights, input, split);
    SplitSum(weights, input, 0, split, |weights|);
    sum := Sum(lanes) + sumScalar + bias;
  }

  /** Adding the next width elements to lane k's residue class adds exactly x[i + k] * w[i + k]. */
  lemma {:induction false} ResidueBlock(w: seq<real>, x: seq<real>, width: nat, k: nat, blocks: nat, i: nat, m: nat)
    requires k < width && m <= width && i == blocks * width && i + m <= |w| && i + m <= |x|
    ensures ResidueDot(w, x, width, k, i + m)
         == ResidueDot(w, x, width, k, i) + (if k < m then x[i + k] * w[i + k] else 0.0)
    decreases m
  {
    if m > 0 {
      ResidueBlock(w, x, width, k, blocks, i, m - 1);
      Division.DivModUnique(i + m - 1, width, blocks, m - 1);
    }
  }

  /** Lane k of the main loop holds exactly the products whose index is k modulo width. */
  lemma {:induction false} LaneIsResidueClass(w: seq<real>, x: seq<real>, width: nat, k: nat, blocks: nat, i: nat)
    requires k < width && i == blocks * width && i <= |w| && i <= |x|
    ensures LaneDot(w, x, width, k, i) == ResidueDot(w, x, width, k, i)
    decreases blocks
  {
    if blocks > 0 {
      Division.MultipleAwayFromZero(blocks, width);
      var j := i - width;
      assert j == (blocks - 1) * width;
      assert LaneDot(w, x, width, k, i) == LaneDot(w, x, width, k, j) + x[j + k] * w[j + k];
      LaneIsResidueClass(w, x, width, k, blocks - 1, j);
      ResidueBlock(w, x, width, k, blocks - 1, j, width);
    }
  }
}
