/** Failure-compatible wrappers: the model's stand-in for JavaScript's
    thrown errors and for values that may be absent. */
module Wrappers {

  datatype Option<+T> = None | Some(value: T)

  /** The outcome of a computation that returns a value or throws `error`. */
  datatype Result<+T, +E> = Ok(value: T) | Err(error: E) {
    predicate IsFailure() { Err? }

    function PropagateFailure<U>(): Result<U, E>
      requires Err?
    {
      Err(error)
    }

    function Extract(): T
      requires Ok?
    {
      value
    }
  }

  /** The outcome of a check that returns nothing or throws `error`. */
  datatype Outcome<+E> = Pass | Fail(error: E)
}
