/** Optional values: a Python `None` or a dictionary key that is absent. */
module Wrappers {

  datatype Option<+T> = None | Some(value: T) {

    /** The value if present, otherwise `default`. */
    function GetOr(default: T): T {
      match this
      case Some(v) => v
      case None => default
    }
  }

  /** A value or the reason it could not be produced. */
  datatype Result<+R, +E> = Ok(value: R) | Err(error: E)
}
