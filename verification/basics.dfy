/** Shared vocabulary: optional values, results, and the fixed-width integer
    types of the Rust source. */
module Basics {

  /** An optional value, standing for Rust's `Option<T>`. */
  datatype Option<+T> = None | Some(value: T)

  /** A success value or an error, standing for Rust's `Result<T, E>`. */
  datatype Result<+T, +E> = Ok(value: T) | Err(error: E)

  /** Rust's `u8`. */
  type U8 = x: nat | x < 256

  /** Rust's `u16`. */
  type U16 = x: nat | x < 65536
}
