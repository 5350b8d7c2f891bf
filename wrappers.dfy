/** Option and Result values standing for Rust's `Option` and `Result`. */
module Wrappers {

  datatype Option<+T> = None | Some(value: T)

  /** `Ok` carries the value of a successful foreign call, `Err` the text of its error. */
  datatype Result<+T> = Ok(value: T) | Err(error: string)
}
