/** Kotlin's nullable values, as an option type. */
module Wrappers {

  datatype Option<+T> = None | Some(value: T)
  {
    /** Kotlin's elvis operator `x ?: default`. */
    function GetOr(default: T): (r: T)
      ensures this.Some? ==> r == value
      ensures this.None? ==> r == default
    {
      match this
      case Some(v) => v
      case None => default
    }
  }
}
