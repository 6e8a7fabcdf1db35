/** Option and Result, the two wrappers every other module uses for absent values and raised errors. */
module Wrappers {
  datatype Option<T> = None | Some(value: T)

  /** The outcome of a Python call: its value, or the exception it raised. */
  datatype Result<T, E> = Ok(value: T) | Err(error: E) {
    predicate IsFailure() { Err? }

    function PropagateFailure<U>(): Result<U, E>
      requires Err?
    {
      Err(error)
    }

    function Extract(): T
      requires Ok?
    {
      value
    }
  }
}
