/** The optional value used for nullable columns and for the `null` answers of a loader. */
module Wrappers {
  datatype Option<+T> = None | Some(value: T)
  {
    /** The value, or `default` when there is none (the `??` operator). */
    function GetOr(default: T): T
    {
      match this
      case Some(v) => v
      case None => default
    }
  }
}
