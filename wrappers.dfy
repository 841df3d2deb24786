/** Option and Result: the absent value and the error path of the lifecycle. */
module Wrappers {

  /** A value that may be missing (JavaScript's null). */
  datatype Option<+T> = None | Some(value: T)

  /** The outcome of an operation that can be rejected with an error value. */
  datatype Result<+T, +E> = Ok(value: T) | Err(error: E)
}
