/** Failure-carrying results: the driver's exceptions (`raise`) become `Err`/`Fail` values. */
module Wrappers {

  datatype Option<+T> = None | Some(value: T)

  /** A value, or the message the driver would raise instead of returning it. */
  datatype Result<+T> = Ok(value: T) | Err(message: string)

  /** The outcome of an operation that returns nothing but may raise. */
  datatype Outcome = Pass | Fail(message: string)
}
