/** Optional values, standing for Python's `None` / an absent key and for JavaScript's
    `null` / `undefined`, and results that are either a value or a raised error. */
module Wrappers {

  datatype Option<+T> = None | Some(value: T) {

    /** The value, or `default` when there is none (Python's `d.get(k, default)`). */
    function GetOr(default: T): T {
      match this
      case Some(v) => v
      case None => default
    }
  }

  /** A value, or the error an operation raised instead of returning one. */
  datatype Result<+T, +E> = Ok(value: T) | Err(error: E)
}
