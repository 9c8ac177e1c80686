/** Failure-compatible wrappers shared by the other modules. */
module Wrappers {

  /** A value that may be absent, like a C# reference that may be null. */
  datatype Option<+T> = None | Some(value: T)

  /** The outcome of an operation that can fail. */
  datatype Result<+T, +E> = Success(value: T) | Failure(error: E)
}
