/** Failure-compatible wrappers shared by the registry and the execution client. */
module Wrappers {

  /** A value that may be absent; `None` models JavaScript's `undefined`/`null`. */
  datatype Option<+T> = None | Some(value: T)

  /** The outcome of an operation that can fault: a value, or the fault raised. */
  datatype Result<+R, +E> = Success(value: R) | Failure(error: E)
}
