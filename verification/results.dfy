/** Failure-carrying values shared by the other modules. */
module Results {

  /** A value that may be missing, as a Go call's `(value, err)` pair is when `err != nil`. */
  datatype Option<+T> = None | Some(value: T)

  /** Either the value an operation produced, or the reason it produced none. */
  datatype Result<+T, +E> = Ok(value: T) | Err(error: E)
}
