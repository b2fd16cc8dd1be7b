/** Go's error-returning conventions, written as datatypes. */
module Wrappers {

  /** An error value; its content is opaque to this model. */
  datatype Error = Error(message: string)

  /** Go's `(T, error)` pair: a value, or the error that prevented computing it. */
  datatype Result<+T> = Ok(value: T) | Err(error: Error)

  /** Go's lone `error` return: nil, or an error. */
  datatype Outcome = Nil | Fail(error: Error)
}
