/** Failure-carrying values used for the services' thrown errors and optional fields. */
module Wrappers {

  /** An optional value: a TypeScript field that may be `undefined`. */
  datatype Option<+T> = None | Some(value: T)

  /** The outcome of a service call that returns a value or throws. */
  datatype Result<+R, +E> = Success(value: R) | Failure(error: E)

  /** The outcome of a service call that returns nothing or throws. */
  datatype Outcome<+E> = Pass | Fail(error: E)
}
