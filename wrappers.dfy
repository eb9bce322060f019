/** Small value wrappers shared by the entity modules.
    JavaScript has two "no value" markers and the structures treat them differently:
    a payload field that is `undefined` is absent (the patch keeps the old value), while
    `null` is a value that overwrites it. `Option` models presence, `Nullable` models null. */
module Wrappers {

  /** Present (`Some`) or absent, i.e. `undefined`. */
  datatype Option<+T> = None | Some(value: T) {
    function GetOr(default: T): T {
      match this
      case Some(v) => v
      case None => default
    }

    /** `x !== undefined ? x : other`, the fallback of every partial update. */
    function OrElse(other: Option<T>): Option<T> {
      if Some? then this else other
    }
  }

  /** A JavaScript value that may be `null`. */
  datatype Nullable<+T> = Null | NonNull(value: T)

  /** The outcome of an operation that may throw: the thrown message is the error. */
  datatype Result<+R, +E> = Success(value: R) | Failure(error: E)
}
