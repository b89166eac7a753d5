/** Failure-carrying values shared by every module of the gateway model. */
module Base {

  /** A value that may be absent: JavaScript's `null` / `undefined`. */
  datatype Option<T> = None | Some(value: T)

  /** The outcome of a call that either returns a value or throws. */
  datatype Result<T, E> = Ok(value: T) | Err(error: E)
}
