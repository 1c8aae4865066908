/** Option and Result datatypes shared by the rest of the model. */
module Wrappers {

  /** A value that may be absent (Go's nil pointer). */
  datatype Option<+T> = None | Some(value: T)

  /** Either a value or an error (Go's `(T, error)` pair with exactly one set). */
  datatype Result<+R, +E> = Success(value: R) | Failure(error: E)
}
