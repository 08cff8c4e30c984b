/** Option, Result and Outcome: the model's stand-ins for Python's `None`
    and for exceptions raised by the modelled operations. */
module Wrappers {

  datatype Option<+T> = None | Some(value: T)

  /** A value, or the error a Python operation would have raised. */
  datatype Result<+R, +E> = Success(value: R) | Failure(error: E)

  /** Normal return (`Pass`), or the error that was raised (`Fail`). */
  datatype Outcome<+E> = Pass | Fail(error: E)
}
