/** An optional value and a value-or-error. */
module Wrappers {

  /** A value that may be absent; stands for an optional field or a `null`. */
  datatype Option<+T> = None | Some(value: T) {

    /** The wrapped value, or `default` when there is none. */
    function GetOr(default: T): T {
      match this
      case Some(v) => v
      case None => default
    }
  }

  /** `after` is what a spread `{...before, ...patch}` leaves for one key:
      the patch's value when the key is present, the old value otherwise. */
  predicate Overridden<T(==)>(o: Option<T>, before: T, after: T) {
    if o.Some? then after == o.value else after == before
  }

  /** Either a computed value or the reason it could not be computed. */
  datatype Result<+T, +E> = Success(value: T) | Failure(error: E)
}
