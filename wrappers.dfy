/** Option and Result, the values JavaScript expresses with `null`/`undefined`/`NaN` and with thrown errors. */
module Wrappers {

  datatype Option<+T> = None | Some(value: T)

  datatype Result<+R, +E> = Success(value: R) | Failure(error: E)
}
