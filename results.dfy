/** Failure-carrying values shared by the models of the host library and the
    key-value provider: Rust's `Option`, `Result` and `Result<(), E>`. */
module Results {

  datatype Option<+T> = None | Some(value: T)

  datatype Result<+T, +E> = Ok(value: T) | Err(error: E)

  /** A `Result<(), E>`: the outcome of an operation that returns nothing. */
  datatype Outcome<+E> = Pass | Fail(error: E)
}
