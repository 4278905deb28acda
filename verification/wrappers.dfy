/** Values for the places where the system returns null or raises:
    `Option` is a value or nothing, `Result` a value or an error message. */
module Wrappers {

  datatype Option<T> = None | Some(value: T)

  datatype Result<R, E> = Success(value: R) | Failure(error: E)

  /** The value held by `o`, and `fallback` when `o` holds none. */
  function ValueOr<T>(o: Option<T>, fallback: T): (v: T)
    ensures o.Some? ==> v == o.value
    ensures o.None? ==> v == fallback
  {
    if o.Some? then o.value else fallback
  }
}
