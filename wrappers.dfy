/** Small failure-carrying datatypes shared by the whole model. */
module Wrappers {

  /** Python's `None` or a present value. */
  datatype Option<+T> = None | Some(value: T)

  /** An HTTP handler's outcome: a body, or an aborted request with its status code. */
  datatype Result<+T> = Ok(value: T) | Err(code: int)
}
