/** Option and Result: the absent values (Java `null`) and the thrown
    exceptions of the aggregation core, written as values. */
module Wrappers {

  datatype Option<+T> = None | Some(value: T)

  datatype Result<+R, +E> = Success(value: R) | Failure(error: E)
}
