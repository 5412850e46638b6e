/** Optional values and error returns shared by the other modules. */
module Wrappers {

  /** A value that may be absent, like `undefined` in the source. */
  datatype Option<+T> = None | Some(value: T) {
    function GetOr(default: T): T {
      match this
      case Some(v) => v
      case None => default
    }
  }

  /**
   * JavaScript truthiness of a string that may be absent: `undefined` and the
   * empty string are falsy, every other string is truthy.
   */
  function Truthy(text: Option<string>): (b: bool)
    ensures text.None? ==> !b
    ensures text == Some("") ==> !b
    ensures text.Some? && text.value != "" ==> b
  {
    text.Some? && text.value != ""
  }

  /** The outcome of an operation that may throw. */
  datatype Result<+R, +E> = Success(value: R) | Failure(error: E)
}
