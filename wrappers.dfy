/** The optional-value and outcome datatypes shared by the model. */
module Wrappers {

  /** An optional value: Python's `None` versus a present value. */
  datatype Option<+T> = None | Some(value: T)

  /** The outcome of an operation that may raise. */
  datatype Result<+R, +E> = Success(value: R) | Failure(error: E)
}
