/** Outcome types shared by the service models. */
module Wrappers {

  datatype Option<+T> = None | Some(value: T)

  /** A service call either commits or throws; a throw rolls the transaction back. */
  datatype Result<+T, +E> = Success(value: T) | Failure(error: E)
}
