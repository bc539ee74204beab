/** Rust's `Option<T>` and `Result<T, E>`, shared by the modules of this project. */
module Wrappers {

  /** `Option<T>`: `Some(value)` or `None`. */
  datatype Option<+T> = None | Some(value: T)

  /** `Result<T, E>`: `Ok(value)` or `Err(error)`. */
  datatype Result<+T, +E> = Ok(value: T) | Err(error: E)
}
