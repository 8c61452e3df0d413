/** Optional values (Java's nullable references) and results that may carry a thrown exception. */
module Wrappers {

  /** A nullable reference: None stands for Java's null. */
  datatype Option<+T> = None | Some(value: T) {
    function GetOr(default: T): T {
      match this
      case Some(v) => v
      case None => default
    }
  }

  /** The runtime exceptions the modelled code can raise. */
  datatype Exception = NullPointer

  /** The value a Java method returns, or the exception it throws instead. */
  datatype Result<+T> = Ok(value: T) | Thrown(exception: Exception)
}
