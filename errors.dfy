/** Exceptions the command layer raises, and the result shapes that carry them. */
module Errors {

  /** `InvalidParameters` (boat/commands/exceptions), and Python's `TypeError` and `AttributeError`. */
  datatype Error = InvalidParameters | TypeError | AttributeError

  /** A computation that either yields a value or raises. */
  datatype Result<T> = Ok(value: T) | Err(error: Error)

  /** A statement that either completes or raises. */
  datatype Outcome = Done | Raised(error: Error)
}
