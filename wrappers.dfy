/** The optional value used where the source has a reference that may be null
    or a value that may be absent. */
module Wrappers {

  datatype Option<+T> = None | Some(value: T) {

    /** The value, or the fallback when absent (JUCE's `Optional::orFallback`). */
    function OrFallback(fallback: T): (r: T)
      ensures Some? ==> r == value
      ensures None? ==> r == fallback
    {
      match this
      case Some(v) => v
      case None => fallback
    }
  }
}
