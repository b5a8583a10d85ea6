/** Failure-carrying wrappers shared by the other modules.
  - Option<T> stands for a pointer that may be null, and for a computation
    that may not finish within its fuel.
  - Result<T, E> stands for an operation that may stop on a failed
    assertion of the modelled C++ code.
 */
module Wrappers {

  datatype Option<+T> = None | Some(value: T)

  datatype Result<+T, +E> = Success(value: T) | Failure(error: E)
}
