/** Rust's `Option<T>` and `Result<T, E>`, as the value layer uses them for
    optional fields and for the outcome of backend operations. */
module Wrappers {

  /** Rust's `Option<T>`: `None` or `Some(value)`. */
  datatype Option<+T> = None | Some(value: T)

  /** Rust's `Result<R, E>`: `Ok(value)` or `Err(error)`. */
  datatype Result<+R, +E> = Ok(value: R) | Err(error: E)
}
