/** Option and Result, the stand-ins for Java's null and for exceptions. */
module Wrappers {

  /** `None` stands for a Java null. */
  datatype Option<+T> = None | Some(value: T) {
    function GetOr(default: T): T {
      match this
      case Some(v) => v
      case None => default
    }
  }

  /** `Err` stands for an exception the source lets escape. */
  datatype Result<+T, +E> = Ok(value: T) | Err(error: E)
}
