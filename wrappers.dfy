/** Option and Result values for the error paths of the model. */
module Wrappers {

  datatype Option<+T> = None | Some(value: T)

  /** A computation that either yields a value or reports the error the source throws. */
  datatype Result<+R> = Success(value: R) | Failure(error: string)
}
