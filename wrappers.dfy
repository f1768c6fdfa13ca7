/** Optional and result types shared by the store and the handlers. */
module Wrappers {

  /** A value that may be absent: a request whose binding failed is `None`. */
  datatype Option<+T> = None | Some(value: T)

  /** The `(value, err)` pair a Go store call returns: exactly one of the two is meaningful. */
  datatype Result<+R, +E> = Success(value: R) | Failure(error: E)
}
