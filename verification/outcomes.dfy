/** Success/failure wrappers used in place of Go's `(value, ok)` and `(value, error)` returns. */
module Outcomes {

  /** A value that may be absent: Go's `(v, ok)` pair or a nil-able error. */
  datatype Option<+T> = None | Some(value: T)

  /** Either a value or an error: Go's `(v, err)` pair. */
  datatype Result<+T, +E> = Success(value: T) | Failure(error: E)
}
