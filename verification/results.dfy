/** Optional values and error-carrying results, the shape of Go's `(value, error)` returns. */
module Results {

  /** A value that may be absent. */
  datatype Option<+T> = None | Some(value: T)

  /** Either a successful value or the single error that stopped the computation. */
  datatype Result<+T, +E> = Ok(value: T) | Err(error: E)
}
