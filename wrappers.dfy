/** Small failure-carrying datatypes shared by the status filter and the users connector. */
module Wrappers {

  /** Python's `None` versus a present value. */
  datatype Option<+T> = None | Some(value: T)

  /** A value-returning operation that may raise. */
  datatype Result<+T, +E> = Ok(value: T) | Err(error: E)

  /** An operation that returns nothing but may raise. */
  datatype Outcome<+E> = Pass | Fail(error: E)
}
