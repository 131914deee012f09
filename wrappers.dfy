/** Option and Result, standing in for Java's null and for thrown exceptions. */
module Wrappers {

  /** A possibly-null reference: None plays the part of Java's null. */
  datatype Option<+T> = None | Some(value: T) {
    function GetOr(default: T): T {
      match this
      case Some(v) => v
      case None => default
    }
  }

  /** The normal return value of a call, or the exception it throws. */
  datatype Result<+R, +E> = Success(value: R) | Failure(error: E)
}
