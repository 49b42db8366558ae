/** Failure-carrying wrappers shared by the model, and the Python exceptions
    that the modelled code raises. */
module Wrappers {

  /** The exceptions the modelled Python code can raise. */
  datatype Exception =
    | IndexError         // numpy index past the end of an array
    | ValueError         // shape check in ConfigSpace.step_from, or an empty range to draw from
    | ZeroDivisionError  // float division by zero in the sample estimators

  datatype Option<+T> = None | Some(value: T)

  /** A value, or the exception that was raised instead of returning it. */
  datatype Result<+T> = Ok(value: T) | Err(error: Exception)

  /** The outcome of a call that returns nothing (Python's `None`). */
  datatype Outcome = Pass | Fail(error: Exception)
}
