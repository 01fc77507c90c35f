/** Failure-carrying values: the model's stand-in for Rust's `Option`, and for
    `Result` / `panic!` on the error paths of the modelled code. */
module Wrappers {
  datatype Option<+T> = None | Some(value: T)

  datatype Result<+T, +E> = Ok(value: T) | Err(error: E)
}
