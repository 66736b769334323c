/** Option and Result, the stock failure-carrying datatypes used by every module. */
module Wrappers {

  datatype Option<+T> = None | Some(value: T)

  datatype Result<+R, +E> = Success(value: R) | Failure(error: E)

  /** One byte, as the .NET `byte` type. */
  type byte = bv8
}
