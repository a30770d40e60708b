/** Failure-carrying values used where the C# code returns null or throws. */
module Wrappers {

  /** A value or its absence (the C# `null`). */
  datatype Option<+T> = None | Some(value: T)

  /** A reply or the exception the call raised instead. */
  datatype Result<+R, +E> = Success(value: R) | Failure(error: E)

  /** Normal completion or the exception raised. */
  datatype Outcome<+E> = Pass | Fail(error: E)
}
