/** The x86-64 strategies: SSE with 4 lanes of 128 bits, AVX with 8 lanes of 256 bits. */
module SimdX86 {
  import opened DotProduct
  import opened Activation
  import opened Lanes

  /** `SSE::forward`. The slice addresses decide only which load the main loop uses. */
  method SseForward(exp: real -> Positive, weights: seq<real>, input: seq<real>, bias: real,
                    inputAddress: nat, weightsAddress: nat)
    returns (p: real)
    requires |weights| <= |input|
    ensures p == Sigmoid(exp, Dot(weights, input) + bias)
  {
    var inputAligned := inputAddress % 16 == 0;
    var weightsAligned := weightsAddress % 16 == 0;
    var sum;
    if inputAligned && weightsAligned {
      sum := BlockedScore(weights, input, bias, 4, Aligned, MulThenAdd);
    } else {
      sum := BlockedScore(weights, input, bias, 4, Unaligned, MulThenAdd);
    }
    p := Sigmoid(exp, sum);
  }

  /** `AVX::forward`: the same structure with 8 lanes and 32-byte alignment. */
  method AvxForward(exp: real -> Positive, weights: seq<real>, input: seq<real>, bias: real,
                    inputAddress: nat, weightsAddress: nat)
    returns (p: real)
    requires |weights| <= |input|
    ensures p == Sigmoid(exp, Dot(weights, input) + bias)
  {
    var inputAligned := inputAddress % 32 == 0;
    var weightsAligned := weightsAddress % 32 == 0;
    var sum;
    if inputAligned && weightsAligned {
      sum := BlockedScore(weights, input, bias, 8, Aligned, MulThenAdd);
    } else {
      sum := BlockedScore(weights, input, bias, 8, Unaligned, MulThenAdd);
    }
    p := Sigmoid(exp, sum);
  }
}
