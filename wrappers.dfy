/** Option and Result values standing in for Python's None and for raised exceptions. */
module Wrappers {

  datatype Option<+T> = None | Some(value: T)

  /** A computation that either produced a value or raised an error. */
  datatype Result<+T, +E> = Ok(value: T) | Err(error: E)

  /** A check that either passed or raised an error. */
  datatype Outcome<+E> = Pass | Fail(error: E)
}
