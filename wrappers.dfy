/** Option and Result: the model's stand-ins for C# nullable references and for
    operations that can throw. */
module Wrappers {

  /** A nullable value: `None` plays the part of C# `null`. */
  datatype Option<+T> = None | Some(value: T) {

    /** The C# `x ?? d` operator with a non-null right operand. */
    function GetOr(default: T): T {
      match this
      case Some(v) => v
      case None => default
    }

    /** The C# `x ?? y` operator (and `x ??= y`) with a nullable right operand. */
    function Or(other: Option<T>): Option<T> {
      if Some? then this else other
    }
  }

  /** The outcome of an operation that either returns a value or throws. */
  datatype Result<+R, +E> = Success(value: R) | Failure(error: E)
}
