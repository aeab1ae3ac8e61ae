/** Optional values and error-carrying results, used for Python's `None` and
    for the exceptions the early-stopping monitor raises. */
module Results {

  /** A value that may be absent (Python `None`). */
  datatype Option<+T> = None | Some(value: T)

  /** Either a successful value or the error that a call raised. */
  datatype Result<+T, +E> = Ok(value: T) | Err(error: E)
}
