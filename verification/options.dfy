/**
 * Absent values and failures.
 *
 * The page code reads optional JSON fields with `x || default` (which replaces
 * `undefined`, `null` and the empty string alike) and `x ?? default` (which
 * replaces only `undefined` and `null`). Here an absent field is `None`, and the
 * two operators become `OrElse` and `GetOr`.
 */
module Options {

  datatype Option<+T> = None | Some(value: T) {
    /** JavaScript `??`: the value, or the default when absent. */
    function GetOr(default: T): T {
      match this
      case Some(v) => v
      case None => default
    }
  }

  /** A fetch that either resolved with a value or rejected with an error. */
  datatype Result<+T, +E> = Success(value: T) | Failure(error: E)

  /** JavaScript truthiness of an optional string: present and non-empty. */
  predicate Truthy(s: Option<string>) {
    s.Some? && s.value != ""
  }

  /** JavaScript `s || default` for an optional string. */
  function OrElse(s: Option<string>, default: string): (r: string)
    ensures Truthy(s) ==> r == s.value
    ensures !Truthy(s) ==> r == default
  {
    if Truthy(s) then s.value else default
  }
}
