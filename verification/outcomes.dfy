/** Panics of the Rust program, made explicit as values. */
module Outcomes {

  /** The reason a call or a run stops with a panic. */
  datatype Failure =
    | DimensionMismatch   // assert_eq! on the row length in `predict`
    | ShortWord           // b[1], b[2] or b[3] of a 4-byte chunk that is too short
    | EmptyParameters     // params[params.len() - 1] on an empty parameter vector
    | DivideByZero        // data.len() / num_features when there are no features

  /** Either the value a call returns, or the panic it raises. */
  datatype Result<+T> = Ok(value: T) | Panic(failure: Failure) {

    predicate IsFailure() {
      Panic?
    }

    function PropagateFailure<U>(): Result<U>
      requires Panic?
    {
      Panic(failure)
    }

    function Extract(): T
      requires Ok?
    {
      value
    }
  }
}
