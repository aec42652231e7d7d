/** Failure-carrying result types shared by every module of the model. */
module Wrappers {

  datatype Option<+T> = None | Some(value: T)

  /** A Go `(value, error)` pair: either the value or the error text. */
  datatype Result<+T> = Ok(value: T) | Err(error: string)

  /**
   * The outcome of running Go code that may panic (an index out of range or a
   * nil dereference). A panic ends the request: nothing after it runs.
   */
  datatype Run<+T> = Returned(value: T) | Panicked(reason: string)
}
