// Optional values, used wherever the source has a nullable or optional field.
module Wrappers {
  datatype Option<T> = None | Some(value: T)
  {
    /** The JavaScript `x ?? fallback` idiom. */
    function GetOr(fallback: T): (r: T)
      ensures this.Some? ==> r == this.value
      ensures this.None? ==> r == fallback
    {
      match this
      case Some(v) => v
      case None => fallback
    }
  }
}
