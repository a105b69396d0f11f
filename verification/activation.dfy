/** The logistic activation `sigmoid(x) = 1 / (1 + exp(-x))`.
    The platform's `exp` is a parameter: the model fixes only that it is positive,
    and the lemmas below add the two facts about it they need (ExpLike). */
module Activation {

  type Positive = r: real | 0.0 < r witness 1.0

  /** The facts about `exp` the threshold and monotonicity lemmas rely on. */
  ghost predicate ExpLike(exp: real -> Positive) {
    && exp(0.0) == 1.0
    && forall a, b :: a < b ==> exp(a) < exp(b)
  }

  /** `sigmoid` exactly as written in the strategies. */
  function Sigmoid(exp: real -> Positive, x: real): (p: real)
    ensures 0.0 < p < 1.0
  {
    1.0 / (1.0 + exp(-x))
  }

  lemma ReciprocalAntitone(p: real, q: real)
    requires 0.0 < p < q
    ensures 1.0 / q < 1.0 / p
  {
  }

  /** Sigmoid is strictly increasing in its input. */
  lemma SigmoidStrictlyIncreasing(exp: real -> Positive, a: real, b: real)
    requires ExpLike(exp)
    requires a < b
    ensures Sigmoid(exp, a) < Sigmoid(exp, b)
  {
    assert exp(-b) < exp(-a);
    ReciprocalAntitone(1.0 + exp(-b), 1.0 + exp(-a));
  }

  lemma SigmoidAtZero(exp: real -> Positive)
    requires ExpLike(exp)
    ensures Sigmoid(exp, 0.0) == 0.5
  {
    assert Sigmoid(exp, 0.0) == 1.0 / (1.0 + exp(0.0));
  }

  /** The logistic threshold `p > 0.5` is the sign test on the score. */
  lemma SigmoidAboveHalf(exp: real -> Positive, x: real)
    requires ExpLike(exp)
    ensures Sigmoid(exp, x) > 0.5 <==> x > 0.0
  {
    SigmoidAtZero(exp);
    if x > 0.0 {
      SigmoidStrictlyIncreasing(exp, 0.0, x);
    } else if x < 0.0 {
      SigmoidStrictlyIncreasing(exp, x, 0.0);
    }
  }
}
