/** Option and Result, used wherever the source returns None or raises. */
module Wrappers {

  /** A value that may be missing (Python's `Optional`). */
  datatype Option<+T> = None | Some(value: T)

  /** A value or the error the source would raise instead. */
  datatype Result<+T, +E> = Ok(value: T) | Err(error: E)
}
