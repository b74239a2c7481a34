/** A value that may be missing: a blank or unparsable input field, or NaN. */
module Wrappers {
  datatype Option<T> = None | Some(value: T)
  {
    predicate IsSome() { this.Some? }

    /** JavaScript's `x || fallback` on a parsed number: NaN falls back. */
    function OrElse(fallback: T): (r: T)
      ensures this.Some? ==> r == value
      ensures this.None? ==> r == fallback
    {
      match this
      case Some(v) => v
      case None => fallback
    }
  }
}
