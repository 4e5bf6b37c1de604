/** Failure-carrying result types shared by the store and its callers. */
module Wrappers {

  /** A value that may be absent (a key never written, a state not yet loaded). */
  datatype Option<+T> = None | Some(value: T)

  /** The settled value of a read: either the value or the error it was rejected with. */
  datatype Result<+R, +E> = Success(value: R) | Failure(error: E)

  /** The settled value of a write, which carries no value. */
  datatype Outcome<+E> = Pass | Fail(error: E)
}
