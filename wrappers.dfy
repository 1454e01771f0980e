/** Failure-carrying results used where the engine throws or returns "nothing". */
module Wrappers {

  /** A value that may be absent (a null pointer, an `npos`, a failed decode). */
  datatype Option<+T> = None | Some(value: T)

  /** The value of an operation that may throw: its result or the error it throws. */
  datatype Result<+T, +E> = Success(value: T) | Failure(error: E)

  /** The outcome of a `void` operation that may throw. */
  datatype Outcome<+E> = Pass | Fail(error: E)
}
