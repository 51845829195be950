/** Option and Result values standing in for PHP's nullable values and thrown exceptions. */
module Wrappers {

  datatype Option<+T> = None | Some(value: T)

  datatype Result<+R, +E> = Ok(value: R) | Err(error: E)

  /** The outcome of a `void` PHP method: it returns, or it throws `error`. */
  datatype Outcome<+E> = Pass | Fail(error: E)
}
