/** Optional values and the JavaScript truthiness test the source applies to
    optional strings (an attribute, a prop, a query parameter). */
module Optional {

  /** A value that may be absent (`undefined` or `null` in the source). */
  datatype Option<+T> = None | Some(value: T)

  /** `if (x)` on a `string | undefined`: absent and empty strings are falsy. */
  predicate Truthy(o: Option<string>) {
    o.Some? && o.value != ""
  }
}
