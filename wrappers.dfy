/** The optional value used for JavaScript's `null`-or-value slots: a stored
    snapshot that may be absent, an avatar that may be unset, an error that may
    not have happened. */
module Wrappers {

  datatype Option<+T> = None | Some(value: T) {

    /** The carried value, or `default` when there is none. */
    function GetOr(default: T): (r: T)
      ensures Some? ==> r == value
      ensures None? ==> r == default
    {
      match this
      case Some(v) => v
      case None => default
    }
  }
}
