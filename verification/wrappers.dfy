/** Option and Result datatypes shared by the analysis and HTTP modules.
    - Option<T>: a value that may be absent (Python's `None`).
    - Result<R, E>: either a normal return or a raised error carrying its message.
 */
module Wrappers {

  /** A present value or nothing. */
  datatype Option<+T> = None | Some(value: T)

  /** The outcome of a call that either returns a value or raises an error. */
  datatype Result<+R, +E> = Success(value: R) | Failure(error: E)
}
