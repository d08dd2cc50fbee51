/** Optional values and results shared by every module of the model. */
module Wrappers {

  /** Python's `None` or a value. */
  datatype Option<+T> = None | Some(value: T)

  /** The exceptions the modelled code raises, by Python class. */
  datatype Error =
    | SystemExit(message: string)
    | KeyError(key: string)
    | ValueError(message: string)
    | OSError(path: string)

  /** A value, or the exception that replaced it. */
  datatype Result<+T> = Ok(value: T) | Err(error: Error)
}
