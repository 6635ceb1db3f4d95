/** The two result types shared by the modules of this project. */
module Wrappers {

  /** A nullable column or an optional argument. */
  datatype Option<+T> = None | Some(value: T) {
    function GetOr(default: T): T {
      match this
      case Some(v) => v
      case None => default
    }
  }

  /** The outcome of an operation that may refuse its input. */
  datatype Result<+R, +E> = Success(value: R) | Failure(error: E)
}
