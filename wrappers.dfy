/** The optional value the Java code expresses with `null`, and the outcome of a call that may throw. */
module Wrappers {

  datatype Option<+T> = None | Some(value: T) {

    /** The value, or `default` when there is none (Java's `x != null ? x : default`). */
    function GetOr(default: T): T {
      match this
      case Some(v) => v
      case None => default
    }
  }

  /** A value, or the error a Java method would have thrown instead. */
  datatype Result<+T, +E> = Success(value: T) | Failure(error: E)
}
