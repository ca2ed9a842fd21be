/** Failure-carrying values used for the JavaScript `throw`s of the modelled code. */
module Wrappers {

  /** A value that may be absent; for JavaScript property reads, `None` is `undefined`. */
  datatype Option<+T> = None | Some(value: T)

  /** The result of a call that either returns a value or throws an error. */
  datatype Result<+R, +E> = Success(value: R) | Failure(error: E)

  /** The result of a call that returns nothing useful or throws an error. */
  datatype Outcome<+E> = Pass | Fail(error: E)
}
