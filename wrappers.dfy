/** Failure-compatible wrappers shared by the modules of this model. */
module Wrappers {

  /** A value that may be absent (Python's None, a failed `int()`, a missing key). */
  datatype Option<+T> = None | Some(value: T)

  /** The value of a computation or the exception the source would raise instead. */
  datatype Result<+T, +E> = Ok(value: T) | Err(error: E)
}
