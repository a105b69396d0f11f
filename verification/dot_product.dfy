/** The sequential reference: the dot product every strategy must reproduce. */
module DotProduct {

  function Min(a: nat, b: nat): nat {
    if a <= b then a else b
  }

  /** Sum of w[j] * x[j] for lo <= j < hi, added left to right. */
  function SumOfProducts(w: seq<real>, x: seq<real>, lo: nat, hi: nat): real
    requires lo <= hi <= |w| && hi <= |x|
    decreases hi - lo
  {
    if lo == hi then 0.0 else SumOfProducts(w, x, lo, hi - 1) + w[hi - 1] * x[hi - 1]
  }

  /** The dot product over the zipped pair: `zip` stops at the shorter sequence. */
  function Dot(w: seq<real>, x: seq<real>): real {
    SumOfProducts(w, x, 0, Min(|w|, |x|))
  }

  /** Left-to-right sum of a sequence, the fold `Iterator::sum` performs. */
  function Sum(s: seq<real>): real {
    if |s| == 0 then 0.0 else Sum(s[..|s| - 1]) + s[|s| - 1]
  }

  /** `weights.iter().zip(input.iter()).map(|(w, x)| w * x).sum()`. */
  method ZipDot(w: seq<real>, x: seq<real>) returns (s: real)
    ensures s == Dot(w, x)
  {
    var n := Min(|w|, |x|);
    s := 0.0;
    var i := 0;
    while i < n
      invariant i <= n
      invariant s == SumOfProducts(w, x, 0, i)
    {
      s := s + w[i] * x[i];
      i := i + 1;
    }
  }

  /** A range of products splits at any midpoint: no index is lost or counted twice. */
  lemma {:induction false} SplitSum(w: seq<real>, x: seq<real>, lo: nat, mid: nat, hi: nat)
    requires lo <= mid <= hi <= |w| && hi <= |x|
    ensures SumOfProducts(w, x, lo, hi) == SumOfProducts(w, x, lo, mid) + SumOfProducts(w, x, mid, hi)
    decreases hi
  {
    if hi > mid {
      SplitSum(w, x, lo, mid, hi - 1);
    }
  }

  /** A range of products depends only on the entries inside the range. */
  lemma {:induction false} SumOfProductsLocal(w: seq<real>, x: seq<real>, w': seq<real>, x': seq<real>, lo: nat, hi: nat)
    requires lo <= hi <= |w| && hi <= |x| && hi <= |w'| && hi <= |x'|
    requires forall j :: lo <= j < hi ==> w[j] == w'[j] && x[j] == x'[j]
    ensures SumOfProducts(w, x, lo, hi) == SumOfProducts(w', x', lo, hi)
    decreases hi - lo
  {
    if lo < hi {
      SumOfProductsLocal(w, x, w', x', lo, hi - 1);
    }
  }

  /** Extra input entries beyond the weights do not change the dot product. */
  lemma DotIgnoresSurplusInput(w: seq<real>, x: seq<real>)
    requires |w| <= |x|
    ensures Dot(w, x) == Dot(w, x[..|w|])
  {
    SumOfProductsLocal(w, x, w, x[..|w|], 0, |w|);
  }

  /** With all weights zero the dot product is zero, whatever the input. */
  lemma {:induction false} ZeroWeightsGiveZero(w: seq<real>, x: seq<real>, hi: nat)
    requires hi <= |w| && hi <= |x|
    requires forall j :: 0 <= j < |w| ==> w[j] == 0.0
    ensures SumOfProducts(w, x, 0, hi) == 0.0
  {
    if hi > 0 {
      ZeroWeightsGiveZero(w, x, hi - 1);
    }
  }

  /** The sum of a lane-wise sum is the sum of the sums. */
  lemma {:induction false} SumLanewise(a: seq<real>, b: seq<real>, c: seq<real>)
    requires |a| == |b| == |c|
    requires forall k :: 0 <= k < |c| ==> c[k] == a[k] + b[k]
    ensures Sum(c) == Sum(a) + Sum(b)
    decreases |c|
  {
    if |c| > 0 {
      var n := |c| - 1;
      SumLanewise(a[..n], b[..n], c[..n]);
    }
  }

  /** A sequence of zeros sums to zero. */
  lemma {:induction false} SumOfZeros(s: seq<real>)
    requires forall k :: 0 <= k < |s| ==> s[k] == 0.0
    ensures Sum(s) == 0.0
    decreases |s|
  {
    if |s| > 0 {
      SumOfZeros(s[..|s| - 1]);
    }
  }

  /** The products of one block, held lane by lane, sum to that block's range of products. */
  lemma {:induction false} BlockSum(w: seq<real>, x: seq<real>, i: nat, p: seq<real>)
    requires i + |p| <= |w| && i + |p| <= |x|
    requires forall k :: 0 <= k < |p| ==> p[k] == x[i + k] * w[i + k]
    ensures Sum(p) == SumOfProducts(w, x, i, i + |p|)
    decreases |p|
  {
    if |p| > 0 {
      BlockSum(w, x, i, p[..|p| - 1]);
    }
  }
}
