/** Option type standing for the C# null reference, and the argument of an overload. */
module Wrappers {
  datatype Option<+T> = None | Some(value: T) {
    function GetOr(default: T): T {
      match this
      case Some(v) => v
      case None => default
    }
  }

  /** An argument of a public overload: left out, or passed (possibly as null). */
  datatype Arg<T> = Omitted | Given(value: T) {
    function GetOr(default: T): T {
      if Given? then value else default
    }
  }
}
