/** Option and Result, the shapes used for JavaScript's `null`/`undefined`
    and for a thrown-or-returned outcome. */
module Wrappers {

  datatype Option<+T> = None | Some(value: T)

  datatype Result<+R, +E> = Success(value: R) | Failure(error: E)
}
