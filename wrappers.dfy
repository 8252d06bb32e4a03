/** Optional values: JavaScript's null/undefined on one side, a value on the other. */
module Wrappers {

  datatype Option<+T> = None | Some(value: T)

  /** The value, or the given default when absent. */
  function GetOr<T>(o: Option<T>, default: T): T
  {
    match o
    case Some(v) => v
    case None => default
  }
}
