/** Option and Result, the two failure-carrying datatypes the model uses in place of
    Python's None and of raised exceptions. A `Result` works with `:-`, so that a raised
    exception propagates as it does in Python. */
module Wrappers {

  datatype Option<+T> = None | Some(value: T)

  datatype Result<+T, +E> = Ok(value: T) | Err(error: E) {

    predicate IsFailure() {
      Err?
    }

    function PropagateFailure<U>(): Result<U, E>
      requires Err?
    {
      Err(error)
    }

    function Extract(): T
      requires Ok?
    {
      value
    }
  }
}
