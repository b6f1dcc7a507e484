/** The two failure-carrying datatypes the models share. */
module Wrappers {

  datatype Option<+T> = None | Some(value: T)

  /** The exceptions of app/exceptions/base.py that the modelled services raise,
      and a crash for errors the program does not catch. */
  datatype Error = Unauthorized | Forbidden | NotFound | Conflict | Invalid | Crash

  datatype Result<+T> = Ok(value: T) | Err(error: Error)
}
