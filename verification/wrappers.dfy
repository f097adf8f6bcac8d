/** Small failure-carrying datatypes shared by the modules of the model. */
module Wrappers {

  /** An optional value. */
  datatype Option<+T> = None | Some(value: T)

  /** Either a value or an error, as Go's `(value, err)` return pairs. */
  datatype Result<+R, +E> = Ok(value: R) | Err(error: E)
}
