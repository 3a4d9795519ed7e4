/** Failure-compatible wrappers used for the runner's error paths. */
module Wrappers {

  /** An absent or present value; in a table cell, None is pandas' missing value. */
  datatype Option<+T> = None | Some(value: T)

  /** A value, or the error the Python code would raise instead. */
  datatype Result<+R, +E> = Success(value: R) | Failure(error: E)
}
