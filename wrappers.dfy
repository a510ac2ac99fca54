/** Failure-carrying values shared by the modules of this model. */
module Wrappers {

  /** A value that may be missing: `None` stands for Python's `None` and JSON's `null`. */
  datatype Option<+T> = None | Some(value: T)

  /** The outcome of an operation that may raise: `Failure` carries the exception. */
  datatype Result<+T, +E> = Success(value: T) | Failure(error: E)
}
