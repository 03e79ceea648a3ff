/** Option and Result values, standing for JavaScript's `undefined`/missing
    fields and for a settled promise (resolved value or thrown error). */
module Wrappers {
  datatype Option<+T> = None | Some(value: T)

  datatype Result<+R, +E> = Success(value: R) | Failure(error: E)
}
