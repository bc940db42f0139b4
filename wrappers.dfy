/** Option and Result values for absent JavaScript properties and thrown errors. */
module Wrappers {

  datatype Option<+T> = None | Some(value: T) {
    function GetOr(default: T): T {
      match this
      case Some(v) => v
      case None => default
    }
  }

  /** `Failure` carries the message of the error the source throws. */
  datatype Result<+R, +E> = Success(value: R) | Failure(error: E)
}
