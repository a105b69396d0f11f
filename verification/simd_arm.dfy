/** The ARM strategy: NEON with 4 fused multiply-add lanes, and its scalar fallback. */
module SimdArm {
  import opened DotProduct
  import opened Activation
  import opened Lanes

  /** `scalar_forward`: the zipped sum of products plus the bias, through sigmoid. */
  method ScalarForward(exp: real -> Positive, weights: seq<real>, input: seq<real>, bias: real)
    returns (p: real)
    ensures p == Sigmoid(exp, Dot(weights, input) + bias)
  {
    var dot := ZipDot(weights, input);
    p := Sigmoid(exp, dot + bias);
  }

  /** `NEON::forward`. On a non-aarch64 build the impl is the scalar path; on aarch64 the
      run-time `neon` query picks the vector loop or, failing it, the scalar path. */
  method NeonForward(exp: real -> Positive, weights: seq<real>, input: seq<real>, bias: real,
                     aarch64Target: bool, neonDetected: bool)
    returns (p: real)
    requires aarch64Target && neonDetected ==> |weights| <= |input|
    ensures p == Sigmoid(exp, Dot(weights, input) + bias)
  {
    if !aarch64Target || !neonDetected {
      p := ScalarForward(exp, weights, input, bias);
      return;
    }
    var sum := BlockedScore(weights, input, bias, 4, Unaligned, FusedMultiplyAdd);
    p := Sigmoid(exp, sum);
  }
}
