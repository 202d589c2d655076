/** Failure-carrying wrappers used across the model: `Option` for the
    source's `Option<T>` and `Result` for its `Result<T, E>`. */
module Results {

  /** An optional value, as Rust's `Option<T>`. */
  datatype Option<+T> = None | Some(value: T)

  /** A value or an error, as Rust's `Result<T, E>`. */
  datatype Result<+T, +E> = Success(value: T) | Failure(error: E)
}
