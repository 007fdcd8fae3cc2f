/** The optional-value wrapper shared by the page modules. */
module Wrappers {

  /** A value that may be absent: the source's `null`/`undefined` fields. */
  datatype Option<+T> = None | Some(value: T) {
    function GetOr(default: T): T {
      match this
      case Some(v) => v
      case None => default
    }
  }
}
