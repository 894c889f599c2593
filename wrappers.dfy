/** Failure-carrying wrappers shared by the whole model. */
module Wrappers {

  /** A value that may be absent (Python's `None`). */
  datatype Option<+T> = None | Some(value: T)

  /** The outcome of an operation that may raise: `Err` stands for the raised exception. */
  datatype Result<+T, +E> = Ok(value: T) | Err(error: E)
}
