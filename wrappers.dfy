/** Optional values and JSON object entries. */
module Wrappers {

  /** The conventional Some/None datatype, standing for a value or Python's None. */
  datatype Option<+T> = None | Some(value: T) {
    function GetOr(default: T): T {
      match this
      case Some(v) => v
      case None => default
    }
  }

  /** An entry of a JSON object, which the source reads with `d.get(key, {})`:
      the key may be missing, present with the value null, or present with a value.
      `get(key, {})` yields `{}` only in the first case and `None` in the second. */
  datatype Field<+T> = Absent | Null | Present(value: T)
}
