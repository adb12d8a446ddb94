/** Success-or-failure values used in place of the exceptions the modelled code raises. */
module Wrappers {

  /** Either a value or the error that was raised instead of returning it. */
  datatype Result<T, E> = Ok(value: T) | Err(error: E)
}
