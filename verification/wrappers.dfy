/** Option and Result, the two failure-carrying shapes the model uses:
    Option for "null or a value", Result for "a value or a thrown fault". */
module Wrappers {

  datatype Option<+T> = None | Some(value: T)

  datatype Result<+R, +E> = Success(value: R) | Failure(error: E)
}
