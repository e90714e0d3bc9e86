/** Option and Result, the failure-carrying values the rest of the model
    uses for optional record fields and for the outcome of a network call. */
module Wrappers {

  /** A value that may be absent (an optional field of a JSON record). */
  datatype Option<+T> = None | Some(value: T) {

    /** The carried value, or `fallback` when there is none. */
    function GetOr(fallback: T): (r: T)
      ensures Some? ==> r == value
      ensures None? ==> r == fallback
    {
      if Some? then value else fallback
    }
  }

  /** The outcome of an asynchronous call: a payload or an error. */
  datatype Result<+R, +E> = Success(value: R) | Failure(error: E)
}
