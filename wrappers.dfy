/** Optional values: `undefined` / `null` in the JavaScript source become `None`. */
module Wrappers {

  datatype Option<+T> = None | Some(value: T) {

    /** The value, or `default` when there is none (the source's `x ?? default`). */
    function GetOr(default: T): T {
      match this
      case Some(v) => v
      case None => default
    }
  }

  /** `s || ''` on an optional string: an absent or empty string gives the empty string. */
  function OrEmpty(s: Option<string>): string {
    s.GetOr("")
  }

  /** JavaScript truthiness of an optional string: present and non-empty. */
  predicate Truthy(s: Option<string>) {
    s.Some? && s.value != ""
  }
}
