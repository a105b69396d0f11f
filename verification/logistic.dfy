/** Logistic regression: the strategy choice, the sequential strategy and the model wrapper. */
module Logistic {
  import opened Outcomes
  import opened DotProduct
  import opened Activation
  import SimdX86
  import SimdArm

  /** The evaluation strategies a `LogisticRegression` can be built with. */
  datatype Strategy = Sequential | Sse | Avx | Neon

  /** What a call observes of its surroundings: the two slices' addresses,
      whether the build targets aarch64, and the run-time `neon` query. */
  datatype CallEnv = CallEnv(inputAddress: nat, weightsAddress: nat, aarch64Target: bool, neonDetected: bool)

  /** The strategies that load whole lane groups of `input` at the weights' indices. */
  predicate ReadsWholeRow(strategy: Strategy, env: CallEnv) {
    strategy.Sse? || strategy.Avx? || (strategy.Neon? && env.aarch64Target && env.neonDetected)
  }

  /** `Sequential::forward`: `1 / (1 + exp(-dot - bias))`. */
  method SequentialForward(exp: real -> Positive, weights: seq<real>, input: seq<real>, bias: real)
    returns (p: real)
    ensures p == Sigmoid(exp, Dot(weights, input) + bias)
  {
    var dot := ZipDot(weights, input);
    p := 1.0 / (1.0 + exp(-dot - bias));
  }

  /** `strategy.forward(weights, input, bias)`: every strategy applies the same sigmoid
      to the same score, the sequential Σ w[i] * x[i] + bias. */
  method Forward(strategy: Strategy, env: CallEnv, exp: real -> Positive,
                 weights: seq<real>, input: seq<real>, bias: real)
    returns (p: real)
    requires ReadsWholeRow(strategy, env) ==> |weights| <= |input|
    ensures p == Sigmoid(exp, Dot(weights, input) + bias)
  {
    match strategy
    case Sequential =>
      p := SequentialForward(exp, weights, input, bias);
    case Sse =>
      p := SimdX86.SseForward(exp, weights, input, bias, env.inputAddress, env.weightsAddress);
    case Avx =>
      p := SimdX86.AvxForward(exp, weights, input, bias, env.inputAddress, env.weightsAddress);
    case Neon =>
      p := SimdArm.NeonForward(exp, weights, input, bias, env.aarch64Target, env.neonDetected);
  }

  /** `LogisticRegression { weights, bias, strategy }`; `new` is the constructor. */
  datatype LogisticRegression = LogisticRegression(weights: seq<real>, bias: real, strategy: Strategy)

  /** `predict`: panics on a row of the wrong length, otherwise the strategy's probability unchanged. */
  method Predict(model: LogisticRegression, env: CallEnv, exp: real -> Positive, input: seq<real>)
    returns (r: Result<real>)
    ensures r.Panic? <==> |model.weights| != |input|
    ensures r.Panic? ==> r.failure == DimensionMismatch
    ensures r.Ok? ==> r.value == Sigmoid(exp, Dot(model.weights, input) + model.bias)
  {
    if |model.weights| != |input| {
      return Panic(DimensionMismatch);
    }
    var p := Forward(model.strategy, env, exp, model.weights, input, model.bias);
    r := Ok(p);
  }
}
