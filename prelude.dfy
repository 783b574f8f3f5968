/**
  Machine types and the two standard sum types the Rust code relies on.
  `u8` is the only integer width the rules engine uses for seats, trick
  counts and action discriminants; arithmetic that would leave its range
  panics in a debug build, so every expression typed `u8` below carries that
  obligation.
 */
module Prelude {

  /** Rust's `u8`. */
  type u8 = x: int | 0 <= x < 256

  /** Rust's `Option<T>`. */
  datatype Option<+T> = None | Some(value: T)

  /** Rust's `Result<T, E>`. */
  datatype Result<+T, +E> = Ok(value: T) | Err(error: E)
}
