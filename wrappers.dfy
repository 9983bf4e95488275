/** Option and Result: the absence of a value and the exceptions raised by the classifier. */
module Wrappers {

  datatype Option<+T> = None | Some(value: T)

  datatype Result<+T, +E> = Ok(value: T) | Err(error: E)
}
