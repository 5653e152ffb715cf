/** Failure-carrying wrappers shared by the whole model: `Option` for a value
    that may be absent (an optional e-mail header) and `Result` for an
    operation that may raise one of the program's exceptions. */
module Basics {

  /** A value that may be missing. */
  datatype Option<+T> = None | Some(value: T)

  datatype Result<+T, +E> = Ok(value: T) | Err(error: E)

  function Min(a: int, b: int): int {
    if a <= b then a else b
  }
}
