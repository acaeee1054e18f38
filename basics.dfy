/** Option and Result values shared by the whole model. A JavaScript property that may be
    `undefined` is an Option; a handler that may refuse its input returns a Result. */
module Basics {

  datatype Option<+T> = None | Some(value: T) {
    /** The value, or `default` when absent (JavaScript `x ?? default`). */
    function GetOr(default: T): T {
      match this
      case Some(v) => v
      case None => default
    }
  }

  datatype Result<+T, +E> = Ok(value: T) | Err(error: E)

  /** A JavaScript-truthy optional string: set and not empty. */
  predicate Filled(s: Option<string>) {
    s.Some? && s.value != []
  }
}
