/** The Option, Result and exception datatypes used throughout the model. `None` also
    stands for a NaN sample in the pandas columns of an instrument. */
module Wrappers {

  datatype Option<+T> = None | Some(value: T)

  /** A value, or the error the Python code raises instead of returning it. */
  datatype Result<+R, +E> = Ok(value: R) | Err(error: E)

  /** The outcome of an operation that either completes or raises. */
  datatype Outcome<+E> = Pass | Fail(error: E)

  /** The Python exceptions the modelled code raises, with the message wherever the code
      composes one. */
  datatype Exception =
    | KeyError(message: string)
    | ValueError(message: string)
    | IndexError
    | ZeroDivisionError
    | TypeError
    | RuntimeError(message: string)
}
