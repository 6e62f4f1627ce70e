/** Option and Result, the two failure-carrying datatypes the model uses for PHP's
    `null`/`false` returns and for the errors that abort the PHP process. */
module Wrappers {

  datatype Option<+T> = None | Some(value: T)

  datatype Result<+R, +E> = Success(value: R) | Failure(error: E)
}
