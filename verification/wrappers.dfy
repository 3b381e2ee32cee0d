/** Failure-carrying results shared by the modules of this model. */
module Wrappers {

  /** An optional value, used where a parse may find nothing. */
  datatype Option<+T> = None | Some(value: T)

  /** Either a computed value or the error the Python code would raise. */
  datatype Result<+T, +E> = Success(value: T) | Failure(error: E)
}
