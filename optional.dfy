/** Values that may be absent, and results that may be an error. */
module Optional {

  /** A value or its absence: JavaScript's `null` and a caught exception both become `None`. */
  datatype Option<+T> = None | Some(value: T)

  /** The outcome of a step that can fail with a typed error. */
  datatype Result<+T, +E> = Ok(value: T) | Err(error: E)
}
