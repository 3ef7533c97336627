/** Option and Result, the stand-ins for Java's null and for thrown exceptions. */
module Common {

  /** SQL NULL or a Java null reference is `None`. */
  datatype Option<+T> = None | Some(value: T) {
    function GetOr(default: T): T {
      match this
      case Some(v) => v
      case None => default
    }
  }

  /** An operation that completes with a value or stops with an error. */
  datatype Result<+T, +E> = Success(value: T) | Failure(error: E)
}
