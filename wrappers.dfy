/** Option and Result, the two failure-carrying wrappers the front end uses
    in place of JavaScript's null and thrown exceptions. Result can be used
    with `:-`, which returns its error early, as a `throw` does. */
module Wrappers {

  datatype Option<+T> = None | Some(value: T)

  datatype Result<+T, +E> = Ok(value: T) | Err(error: E) {

    predicate IsFailure() {
      Err?
    }

    function PropagateFailure<U>(): Result<U, E>
      requires Err?
    {
      Err(error)
    }

    function Extract(): T
      requires Ok?
    {
      value
    }
  }
}
