/** Optional values, standing for `undefined`, `null` and Swift's `nil`. */
module Wrappers {
  datatype Option<+T> = None | Some(value: T)

  /** JavaScript truthiness of an optional string: defined and non-empty. */
  predicate Present(o: Option<string>) {
    o.Some? && o.value != ""
  }
}
