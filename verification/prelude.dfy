/** Rust's machine integers and the result shapes the scraper returns. */
module Prelude {

  /** Rust `u32`. Arithmetic on it is checked: leaving the range is a verification error. */
  newtype u32 = x: int | 0 <= x < 0x1_0000_0000

  /** Rust `u64`. */
  newtype u64 = x: int | 0 <= x < 0x1_0000_0000_0000_0000

  /** Rust `usize` on a 64-bit target. */
  type usize = u64

  datatype Option<+T> = None | Some(value: T)

  /** A Rust `Result<T, ScrapingError>`; a `ScrapingError` is nothing but its message. */
  datatype Result<+T> = Ok(value: T) | Err(error: string)

  /** How a call from Python ends: it returns a value, raises an exception carrying a
      message, panics, or never returns because it waits forever. */
  datatype Reply<+T> = Returned(value: T) | Raised(message: string) | Panicked | Blocked
}
