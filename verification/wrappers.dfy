/** Failure-compatible wrappers: an optional value (Java's nullable reference)
    and a result that is either a value or the fault that aborted the computation
    (Java's thrown exception). */
module Wrappers {

  /** `None` plays the part of Java's `null`. */
  datatype Option<+T> = None | Some(value: T)

  /** `Failure` plays the part of an exception propagating to the caller. */
  datatype Result<+T, +E> = Success(value: T) | Failure(error: E)
}
