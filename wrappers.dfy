/** Failure-compatible wrappers shared by the modules of this model. */
module Wrappers {

  /** A value that may be absent: Python's `None` or a lookup that raises. */
  datatype Option<+T> = None | Some(value: T)

  /** The outcome of an operation that may raise instead of returning. */
  datatype Result<+T, +E> = Success(value: T) | Failure(error: E)
}
