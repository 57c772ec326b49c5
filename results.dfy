/** Failure-carrying values shared by every module: Go's `(value, error)` pairs and nil pointers. */
module Results {

  /** An optional value: a Go pointer that may be nil, or an error that may be nil. */
  datatype Option<+T> = None | Some(value: T)

  /** A Go `(value, error)` return: exactly one of the two is meaningful. */
  datatype Result<+T, +E> = Ok(value: T) | Err(error: E)
}
