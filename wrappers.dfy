/** The nullable references of the C# source, written as an option type. */
module Wrappers {

  /** `None` stands for a C# `null`; `Some(v)` for a non-null value `v`. */
  datatype Option<+T> = None | Some(value: T) {

    /** The value, or `default` when null: C#'s `x ?? default`. */
    function GetOr(default: T): T {
      match this
      case Some(v) => v
      case None => default
    }
  }
}
