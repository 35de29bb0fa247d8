/** Option and Result, the two failure-carrying datatypes used by the model:
    Option stands for Python's "value or None", Result for "value or raised exception". */
module Wrappers {

  datatype Option<+T> = None | Some(value: T)

  datatype Result<+T, +E> = Ok(value: T) | Err(error: E)
}
