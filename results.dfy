/** Failure-carrying values used across the wiki model. */
module Results {

  /** A value that may be missing (Go's nil error or nil slice). */
  datatype Option<+T> = None | Some(value: T)

  /** Either a value or an error, like Go's (value, err) return pair. */
  datatype Result<+T, +E> = Success(value: T) | Failure(error: E)
}
