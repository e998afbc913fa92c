/** Option and Result types shared by the model. */
module Wrappers {

  /** An optional value; `None` plays the part of Go's `nil`. */
  datatype Option<+T> = None | Some(value: T)

  /** The reply of an external call: a value, or an error whose text is `error`. */
  datatype Result<+T> = Ok(value: T) | Err(error: string)
}
