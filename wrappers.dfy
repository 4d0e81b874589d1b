/** Option, Result and Outcome: the values Python code gives as `None`, a
    returned value, or a raised exception. */
module Wrappers {

  datatype Option<+T> = None | Some(value: T)

  /** `Ok` is a normal return; `Err` carries `str(exc)` of a raised exception. */
  datatype Result<+T> = Ok(value: T) | Err(error: string)

  /** A procedure that returns nothing or raises. */
  datatype Outcome = Pass | Fail(error: string)
}
