/** Failure-carrying values: the model's stand-in for C++ exceptions and
    for "no viable overload". */
module Wrappers {

  datatype Option<+T> = None | Some(value: T)

  /** The outcome of an operation that returns a value or propagates an exception. */
  datatype Result<+R, +E> = Success(value: R) | Failure(error: E)

  /** The outcome of an operation that returns nothing (`void`) or propagates an exception. */
  datatype Outcome<+E> = Pass | Fail(error: E)
}
