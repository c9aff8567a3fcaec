/** Failure-carrying datatypes shared by the modules of the model. */
module Results {

  /** A value that may be absent, as Python's `hasattr` test or an optional argument. */
  datatype Option<+T> = None | Some(value: T)

  /** The outcome of an operation that may raise an exception in the source. */
  datatype Result<+T, +E> = Ok(value: T) | Err(error: E)
}
