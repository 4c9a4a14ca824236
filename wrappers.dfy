// Shared value wrappers: a Java reference that may be null, and the outcome of
// a Java/JavaScript call that may throw instead of returning.
module Wrappers {

  /** A value that may be absent (Java `null`, a missing map key, JS `undefined`). */
  datatype Option<T> = None | Some(value: T)
  {
    function GetOr(default: T): (r: T)
      ensures Some? ==> r == value
      ensures None? ==> r == default
    {
      match this
      case Some(v) => v
      case None => default
    }
  }

  /** The result of a call that either returns a value or throws an exception. */
  datatype Outcome<T> = Returned(value: T) | Threw(exception: string)
}
