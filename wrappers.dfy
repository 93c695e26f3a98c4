/** The Some/None datatype used wherever the Python code may find nothing
    (a missing dictionary key, a failed conversion, an exception that the
    caller catches). */
module Wrappers {

  datatype Option<+T> = None | Some(value: T) {

    /** The wrapped value, or `default` when there is none. */
    function GetOr(default: T): T {
      match this
      case Some(v) => v
      case None => default
    }
  }
}
