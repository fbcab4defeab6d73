/** Failure-compatible wrappers shared by the budget model: an optional value
    (a nullable column) and a result that is either a value or an error. */
module Wrappers {

  /** A value that may be absent, as a nullable database column is. */
  datatype Option<+T> = None | Some(value: T)

  /** Either a value or an error, for operations the source lets raise. */
  datatype Result<+R, +E> = Success(value: R) | Failure(error: E)
}
