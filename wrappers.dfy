/** Optional values and success/failure results, as Swift's `Optional` and `Result`. */
module Wrappers {

  datatype Option<+T> = None | Some(value: T) {
    /** The wrapped value, or `default` when there is none (Swift's `??`). */
    function GetOr(default: T): T {
      match this
      case Some(v) => v
      case None => default
    }
  }

  datatype Result<+R, +E> = Success(value: R) | Failure(error: E)

  /** The zero- or one-element sequence holding an optional value. */
  function OptionToSeq<T>(o: Option<T>): (s: seq<T>)
    ensures |s| <= 1
    ensures s == [] <==> o.None?
    ensures o.Some? ==> s[0] == o.value
  {
    match o
    case Some(v) => [v]
    case None => []
  }
}
