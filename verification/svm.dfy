/** Linear SVM: the sequential margin and the model wrapper that thresholds it. */
module Svm {
  import opened Outcomes
  import opened DotProduct

  /** The evaluation strategies a `SupportVectorMachine` can be built with. */
  datatype Strategy = Sequential

  /** `Sequential::forward`: the raw margin, with no activation. */
  method SequentialForward(weights: seq<real>, input: seq<real>, bias: real) returns (score: real)
    ensures score == Dot(weights, input) + bias
  {
    var dot := ZipDot(weights, input);
    score := dot + bias;
  }

  method Forward(strategy: Strategy, weights: seq<real>, input: seq<real>, bias: real) returns (score: real)
    ensures score == Dot(weights, input) + bias
  {
    match strategy
    case Sequential =>
      score := SequentialForward(weights, input, bias);
  }

  /** `SupportVectorMachine { weights, bias, strategy }`; `new` is the constructor. */
  datatype SupportVectorMachine = SupportVectorMachine(weights: seq<real>, bias: real, strategy: Strategy)

  /** The class of a margin: `if score > 0.0 { 1 } else { -1 }`. */
  function Label(score: real): (sign: int)
    ensures sign == 1 || sign == -1
    ensures sign == 1 <==> score > 0.0
  {
    if score > 0.0 then 1 else -1
  }

  /** `predict`: panics on a row of the wrong length, otherwise +1 for a positive margin
      and -1 for a zero or negative one. */
  method Predict(model: SupportVectorMachine, input: seq<real>) returns (r: Result<int>)
    ensures r.Panic? <==> |model.weights| != |input|
    ensures r.Panic? ==> r.failure == DimensionMismatch
    ensures r.Ok? ==> r.value == 1 || r.value == -1
    ensures r.Ok? ==> (r.value == 1 <==> Dot(model.weights, input) + model.bias > 0.0)
  {
    if |model.weights| != |input| {
      return Panic(DimensionMismatch);
    }
    var score := Forward(model.strategy, model.weights, input, model.bias);
    r := Ok(Label(score));
  }
}
