/** The two failure-carrying shapes used throughout the model, and bytes. */
module Wrappers {

  datatype Option<+T> = None | Some(value: T)

  /** Rust's `Result`: a value or the error that stopped the computation. */
  datatype Result<+T, +E> = Ok(value: T) | Err(error: E)

  /** Rust's `u8`. */
  type Byte = b: int | 0 <= b < 256
}
