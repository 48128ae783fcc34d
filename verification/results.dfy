/** Failure-carrying wrappers shared by the discovery and response modules:
    `Option` stands in for a Java reference that may be null, `Result` for a
    call that either returns a value or throws. */
module Results {

  /** A value that may be absent (a Java `null` or an empty `Optional`). */
  datatype Option<+T> = None | Some(value: T)

  /** The outcome of a call that returns `value` or throws `error`. */
  datatype Result<+T, +E> = Ok(value: T) | Err(error: E)
}
