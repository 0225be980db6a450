/** Option and Result types shared by the other modules. */
module Wrappers {

  /** A value that may be absent: a Go pointer that may be nil. */
  datatype Option<+T> = None | Some(value: T)

  /** The (value, error) pair a Go constructor returns. */
  datatype Result<+T, +E> = Success(value: T) | Failure(error: E)
}
