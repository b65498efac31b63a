/** Option and Result: the absent value and the thrown exception of the C# source, as values. */
module Wrappers {

  datatype Option<+T> = None | Some(value: T)

  /** `Failure` stands for an exception: the action's whole state delta is discarded with it. */
  datatype Result<+T, +E> = Success(value: T) | Failure(error: E)
}
