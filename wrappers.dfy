/** Option and Result: the two shapes every handler result takes. */
module Wrappers {

  /** A value that may be absent: Go's nil pointer or missing map entry. */
  datatype Option<+T> = None | Some(value: T)

  /** A Go `(value, error)` pair where exactly one side is meaningful. */
  datatype Result<+T, +E> = Success(value: T) | Failure(error: E)
}
