/** The Python exceptions the core raises, and the result types that carry them. */
module Results {

  /** The exception classes raised by the modelled code. */
  datatype PyError = ValueError | TypeError | IndexError | AttributeError

  /** A computation that either returns a value or raises. */
  datatype Result<+T> = Success(value: T) | Failure(error: PyError)

  /** A state change that either completes or raises. */
  datatype Outcome = Pass | Fail(error: PyError)

  /** A Python argument that may be `None`. */
  datatype Option<+T> = None | Some(value: T)
}
