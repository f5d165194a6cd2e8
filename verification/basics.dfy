/** The optional-value type shared by every module of the model. */
module Basics {

  /** A value that may be absent; stands for the source's `T | null`. */
  datatype Option<+T> = None | Some(value: T) {

    /** The wrapped value, or `default` when there is none. */
    function GetOr(default: T): T {
      match this
      case Some(v) => v
      case None => default
    }
  }
}
