/** Failure-compatible wrappers used across the model: Rust's `Option` and
    `anyhow::Result`, the latter with the error's display text as payload. */
module Wrappers {

  datatype Option<+T> = None | Some(value: T)

  datatype Result<+T> = Success(value: T) | Failure(error: string)

  /** A `Result<()>`: success, or an error with its display text. */
  datatype Outcome = Pass | Fail(error: string)
}
