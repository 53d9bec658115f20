/** The result type shared by the solvers. */
module Wrappers {

  /** Either a computed value or the error the source would raise instead. */
  datatype Result<+R, +E> = Success(value: R) | Failure(error: E)
}
