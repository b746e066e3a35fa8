/** Optional values and results with an error, used for the "no default"
    sentinel and for the exceptions the configuration store raises. */
module Wrappers {

  /** `None` is the "no default supplied" sentinel; `Some(v)` a supplied default
      (which may itself be the null value). */
  datatype Option<+T> = None | Some(value: T)

  /** The outcome of an operation that may raise. */
  datatype Result<+R, +E> = Success(value: R) | Failure(error: E)
}
