/** Optional values and results shared by the recipe adapter model. */
module Wrappers {

  /** Python's `None`, or a present value. */
  datatype Option<+T> = None | Some(value: T)

  /** A computed value, or the error whose exception stopped the computation. */
  datatype Result<+R, +E> = Success(value: R) | Failure(error: E)
}
