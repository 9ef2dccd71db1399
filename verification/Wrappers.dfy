/** The optional-value datatype shared by every layer of the model. */
module Wrappers {

  /** A value that may be absent: a missing form field, a `null` state slot,
      a parse that did not produce anything. */
  datatype Option<+T> = None | Some(value: T) {

    /** The carried value, or `default` when there is none. */
    function GetOr(default: T): (r: T)
      ensures Some? ==> r == value
      ensures None? ==> r == default
    {
      match this
      case Some(v) => v
      case None => default
    }
  }
}
