/** Option and Result types shared by the store and the pages. */
module Wrappers {

  /** A value that may be absent; stands in for TypeScript's `T | null`. */
  datatype Option<+T> = None | Some(value: T)

  /** Either a value or an error the caller must handle. */
  datatype Result<+R, +E> = Success(value: R) | Failure(error: E)
}
