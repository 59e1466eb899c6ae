/** The optional-value and outcome datatypes shared by the modules of this project. */
module Wrappers {

  /** An optional value: `None` stands for a pandas NaN / NaT. */
  datatype Option<+T> = None | Some(value: T)

  /** The outcome of an operation that can raise. */
  datatype Result<+R, +E> = Success(value: R) | Failure(error: E)
}
