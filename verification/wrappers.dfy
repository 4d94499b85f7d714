/** The absent-or-present value used wherever the stores hold `T | null`
    or a lookup may come back `undefined`. */
module Wrappers {

  datatype Option<+T> = None | Some(value: T)
  {
    /** The value, or `default` when absent (the `x || default` and `x ?? default` idiom). */
    function GetOr(default: T): T
    {
      match this
      case Some(v) => v
      case None => default
    }
  }
}
