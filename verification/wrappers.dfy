/** Failure-carrying values shared by the modules: Go returns `(value, error)`
    pairs or a bare `error`; the model returns one of these instead. */
module Wrappers {

  /** A value that may be absent (a nil `error` is `None`). */
  datatype Option<+T> = None | Some(value: T)

  /** Either a value or the error that stopped its computation. */
  datatype Result<+T, +E> = Ok(value: T) | Err(error: E)
}
