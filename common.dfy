/** Failure-carrying results shared by every module of the model: a C++ exception
    thrown by the source becomes an `Err` or `Fail` value here. */
module Common {

  datatype Option<+T> = None | Some(value: T)

  /** A value or the reason it could not be produced. */
  datatype Result<+T, +E> = Ok(value: T) | Err(error: E)

  /** The outcome of an operation that returns nothing but may throw. */
  datatype Outcome<+E> = Pass | Fail(error: E)
}
