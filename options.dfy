/** An optional value, for the request fields the server may find `undefined`. */
module Options {

  datatype Option<+T> = None | Some(value: T)

  /**
   * JavaScript truthiness of an optional string field: absent (`undefined`,
   * `null`) and the empty string are falsy, every other string is truthy.
   */
  predicate Truthy(s: Option<string>) {
    s.Some? && s.value != ""
  }
}
