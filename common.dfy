/** The Option and Result datatypes shared by every module of the model. */
module Common {

  /** An optional value: `undefined` in the scripts becomes `None`. */
  datatype Option<+T> = None | Some(value: T)

  /** The outcome of a computation that may stop with an error. */
  datatype Result<+R, +E> = Success(value: R) | Failure(error: E)
}
