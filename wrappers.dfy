/** Python's `None`-or-value, used for dictionary lookups that may miss
    and for optional dictionary keys; and a value-or-exception result for
    the operations that can raise. */
module Wrappers {

  datatype Option<+T> = None | Some(value: T) {

    /** The value, or `default` for None (Python's `d.get(k, default)`). */
    function GetOr(default: T): T {
      match this
      case Some(v) => v
      case None => default
    }
  }

  /** A value, or the Python exception the operation raises instead. */
  datatype Result<+T> = Success(value: T) | Failure(error: string)
}
