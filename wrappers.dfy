/** Option and Result values shared by every module of the model. A Result
    stands for a Python call that either returns or raises; the Failure text
    is the exception's message. */
module Wrappers {

  datatype Option<+T> = None | Some(value: T) {
    function GetOr(default: T): T {
      match this
      case Some(v) => v
      case None => default
    }
  }

  datatype Result<+T> = Success(value: T) | Failure(error: string)
}
