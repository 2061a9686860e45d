/** Failure-compatible result types shared by the whole model. */
module Wrappers {

  /** A value that may be absent: Kotlin's nullable `T?`. */
  datatype Option<+T> = None | Some(value: T)

  /** The outcome of an operation that can end in an exception or an error path. */
  datatype Result<+T, +E> = Success(value: T) | Failure(error: E)
}
