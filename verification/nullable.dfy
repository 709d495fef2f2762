/** A C# reference that may be `null`. */
module Nullable {

  datatype Nullable<+T> = Null | NonNull(value: T) {

    /** The referenced value, or `fallback` for `null`. */
    function ValueOr(fallback: T): (r: T)
      ensures NonNull? ==> r == value
      ensures Null? ==> r == fallback
    {
      match this
      case NonNull(v) => v
      case Null => fallback
    }
  }
}
