/** Optional values, used for absent JSON fields, missing storage keys and `undefined`. */
module Wrappers {
  datatype Option<T> = None | Some(value: T) {
    predicate IsSome() { this.Some? }

    /** The value, or `default` when absent. */
    function GetOr(default: T): T {
      match this
      case Some(v) => v
      case None => default
    }
  }

  /** JavaScript `a || b` on an optional string: absent and the empty string are falsy. */
  function OrElse(a: Option<string>, b: string): (r: string)
    ensures r == b || (a.Some? && r == a.value && r != [])
    ensures (a.Some? && a.value != []) ==> r == a.value
  {
    if a.Some? && a.value != [] then a.value else b
  }

  /** JavaScript `a || b` on two strings. */
  function Or(a: string, b: string): (r: string)
    ensures a != [] ==> r == a
    ensures a == [] ==> r == b
  {
    if a != [] then a else b
  }

  /** Truthiness of an optional string, as JavaScript's `if (x)` reads it. */
  predicate Truthy(a: Option<string>) {
    a.Some? && a.value != []
  }
}
