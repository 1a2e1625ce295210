/** The failure-compatible result type used for every operation of the
    interpreter that the Rust code guards with a panic. */
module Wrappers {

  /** Either the value an operation produced or the error that stopped it. */
  datatype Result<+T, +E> = Ok(value: T) | Err(error: E) {

    predicate IsFailure() {
      Err?
    }

    function PropagateFailure<U>(): Result<U, E>
      requires Err?
    {
      Err(error)
    }

    function Extract(): T
      requires Ok?
    {
      value
    }
  }
}
