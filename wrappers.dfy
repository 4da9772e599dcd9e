/** Option and Result values used where the browser runtime answers "no value" (NaN, Invalid Date)
    and where a validation step rejects its input. */
module Wrappers {
  datatype Option<+T> = None | Some(value: T) {
    /** The value, or `default` when there is none (JavaScript's `x || default` on a missing entry). */
    function GetOr(default: T): T {
      match this
      case Some(v) => v
      case None => default
    }

    /** The value as a sequence of zero or one elements. */
    function ToSeq(): (r: seq<T>)
      ensures |r| <= 1
    {
      match this
      case Some(v) => [v]
      case None => []
    }
  }

  datatype Result<+T, +E> = Ok(value: T) | Err(error: E)
}
