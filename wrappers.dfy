/** Option and Result, the two failure-carrying types the modifier's
    helpers return (Rust's `Option` and `anyhow::Result`). */
module Wrappers {

  datatype Option<+T> = None | Some(value: T)

  datatype Result<+T, +E> = Ok(value: T) | Err(error: E)
}
