/** Option and Result, used for PHP's nullable returns and its exceptions. */
module Wrappers {

  datatype Option<+T> = None | Some(value: T)

  /** Ok carries a returned value, Err the exception the PHP code throws. */
  datatype Result<+T, +E> = Ok(value: T) | Err(error: E)
}
