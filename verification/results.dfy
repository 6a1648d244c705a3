/** Optional values and success/failure results, used wherever the Go code
    returns a possibly-nil value or an `error` next to a value. */
module Results {

  datatype Option<+T> = None | Some(value: T)

  datatype Result<+T, +E> = Ok(value: T) | Err(error: E)
}
