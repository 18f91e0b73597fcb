/** Values shared by the server and client models. */
module Common {

  /** A JavaScript value that may be `null` or `undefined` (None) or present (Some). */
  datatype Option<+T> = None | Some(value: T)

  /** JavaScript truthiness of a `string | null` value: `null`, `undefined` and `""` are falsy. */
  predicate Truthy(s: Option<string>) {
    s.Some? && s.value != ""
  }
}
