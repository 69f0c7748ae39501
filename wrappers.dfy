/** Option, Result and Outcome values used in place of C# nulls and exceptions. */
module Wrappers {

  /** A nullable value: `None` stands for C# `null`. */
  datatype Option<+T> = None | Some(value: T)

  /** A value-returning call that either returns or throws. */
  datatype Result<+T, +E> = Success(value: T) | Failure(error: E)

  /** A call that returns nothing: it either completes or throws. */
  datatype Outcome<+E> = Pass | Fail(error: E)
}
