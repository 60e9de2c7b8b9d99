/** Small failure-carrying datatypes shared by the model. */
module Wrappers {

  /** A value that may be absent, as a Python attribute that `hasattr` may not find. */
  datatype Option<+T> = None | Some(value: T)

  /** The Python exceptions the modelled callbacks can raise. */
  datatype Exception = ZeroDivisionError

  /** Either the callback finished, with its result, or it raised. */
  datatype Result<+T> = Ok(value: T) | Raised(error: Exception)
}
