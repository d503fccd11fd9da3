/** Failure-carrying values shared by the modules of this model. */
module Common {

  /** A value that may be absent: an attribute never assigned, a search without a match. */
  datatype Option<+T> = None | Some(value: T)

  /** The outcome of an operation that Python would end by raising. */
  datatype Result<+T, +E> = Ok(value: T) | Err(error: E)
}
