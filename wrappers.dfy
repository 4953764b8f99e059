/** Option and Result, the two failure-carrying shapes the rest of the model uses:
    Option for a value that may be absent (`null`, `undefined`), Result for an
    operation that either returns a value or throws. */
module Wrappers {

  datatype Option<+T> = None | Some(value: T)

  datatype Result<+T, +E> = Ok(value: T) | Err(error: E)
}
