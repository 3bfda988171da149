/** Optional values and the outcome of a call that may raise an exception
    which escapes to its caller. */
module Wrappers {

  /** An optional value: the model of Python's `Optional[T]` (None or a value). */
  datatype Option<+T> = None | Some(value: T) {

    /** The value, or `default` when there is none (Python's `x or default`
        for values whose only falsy form is None). */
    function GetOr(default: T): T {
      match this
      case Some(v) => v
      case None => default
    }
  }

  /** What a call hands back to its caller: either it returns a value, or an
      exception with the given message escapes it. */
  datatype Call<+T> = Returned(value: T) | Threw(message: string)
}
