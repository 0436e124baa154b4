/** Failure-carrying datatypes shared by the modules of this model. */
module Common {

  /** A value that may be absent (an optional key of an options record). */
  datatype Option<+T> = None | Some(value: T)

  /** The outcome of a check that returns nothing on success and throws on failure. */
  datatype Outcome<+E> = Ok | Err(error: E)

  /** The outcome of an operation that returns a value on success and throws on failure. */
  datatype Result<+T, +E> = Success(value: T) | Failure(error: E)
}
