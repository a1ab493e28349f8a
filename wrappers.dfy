/** Option and Result, used where the modelled code returns None or raises. */
module Wrappers {

  datatype Option<+T> = None | Some(value: T)

  /** `Err` stands for a Python exception; `msg` is its text. */
  datatype Result<+T> = Ok(value: T) | Err(msg: string)
}
