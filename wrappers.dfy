/** Failure-compatible result type: a JavaScript `throw` is modelled as a `Failure`. */
module Wrappers {

  datatype Result<+R, +E> = Success(value: R) | Failure(error: E)
}
