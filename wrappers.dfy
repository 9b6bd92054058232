/** Option and Result values for the source's `None` returns and raised exceptions. */
module Wrappers {

  datatype Option<+T> = None | Some(value: T)

  /** `Failure` stands for an exception that escapes the modelled Python call. */
  datatype Result<+T, +E> = Success(value: T) | Failure(error: E)
}
