/** Failure-compatible wrappers shared by the modules of this model. */
module Wrappers {

  /** An optional value (JavaScript's `undefined`/`null` versus a value). */
  datatype Option<+T> = None | Some(value: T)

  /** The outcome of a computation that either returns a value or throws. */
  datatype Result<+R, +E> = Success(value: R) | Failure(error: E)
}
