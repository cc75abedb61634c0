/** Kotlin's nullable values (`T?`) as an explicit option type. */
module Wrappers {
  datatype Option<+T> = None | Some(value: T)
  {
    /** The elvis operator `x ?: default`. */
    function GetOr(default: T): T
    {
      if Some? then value else default
    }
  }
}
