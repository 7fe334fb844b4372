/** Option and Result, used for values that may be absent and for runs that abort. */
module Wrappers {

  datatype Option<+T> = None | Some(value: T)

  /** `Failure` stands for an exception that nothing catches: the build stops there. */
  datatype Result<+T, +E> = Success(value: T) | Failure(error: E)
}
