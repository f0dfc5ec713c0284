/** Result type standing for Go's `(value, error)` return pairs. */
module Wrappers {

  datatype Option<+T> = None | Some(value: T)

  /** `Ok(v)` is a nil error with value `v`; `Err(e)` a non-nil error `e` and no value. */
  datatype Result<+T, +E> = Ok(value: T) | Err(error: E)
}
