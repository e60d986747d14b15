/** Failure-carrying results used for the source's thrown errors and nullable returns. */
module Wrappers {

  /** A value or nothing (the source's `null` / `undefined`). */
  datatype Option<+T> = None | Some(value: T)

  /** A value or the error the source would throw. */
  datatype Result<+T, +E> = Success(value: T) | Failure(error: E)

  /** Success without a value, or the error the source would throw. */
  datatype Outcome<+E> = Pass | Fail(error: E)
}
