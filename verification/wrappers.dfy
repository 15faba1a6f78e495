/** Failure-compatible wrappers shared by the resolver and the printers:
    `Option` stands for a Go value that may be nil, `Result` for a computation
    that either yields a value or aborts (a Go panic) with an error value. */
module Wrappers {

  datatype Option<+T> = None | Some(value: T)

  datatype Result<+T, +E> = Ok(value: T) | Err(error: E) {

    predicate IsFailure() {
      Err?
    }

    function PropagateFailure<U>(): Result<U, E>
      requires Err?
    {
      Err(error)
    }

    function Extract(): T
      requires Ok?
    {
      value
    }
  }
}
