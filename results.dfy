/** Failure-compatible wrappers shared by the connection cache and the sink configuration. */
module Results {

  /** A value that may be absent; stands in for a nullable Java reference. */
  datatype Option<+T> = None | Some(value: T)

  /** Either a value or the error a Java exception would carry. */
  datatype Result<+T, +E> = Ok(value: T) | Err(error: E)
}
