/**
 * The few JavaScript value notions the session layer relies on:
 * possibly-absent values (`null`/`undefined`), truthiness of strings,
 * and `String.prototype.startsWith`.
 */
module Js {

  /** A value that may be `null` or `undefined` (None) or present (Some). */
  datatype Option<+T> = None | Some(value: T)

  /**
   * JavaScript truthiness of an optional string: present and not the
   * empty string.
   */
  predicate Truthy(v: Option<string>)
  {
    v.Some? && v.value != ""
  }

  /** `s.startsWith(prefix)`. */
  predicate StartsWith(s: string, prefix: string)
  {
    prefix <= s
  }
}
