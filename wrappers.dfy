/** Failure-carrying values shared by the whole model. */
module Wrappers {

  /** A Ruby value that may be nil. */
  datatype Option<+T> = None | Some(value: T)

  /** The result of an operation that either returns or raises. */
  datatype Result<+R, +E> = Success(value: R) | Failure(error: E)

  /** How a caller-supplied block finished: it returned a value or it raised. */
  datatype Outcome<+T> = Returned(value: T) | Raised(exception: string)
}
