/** Optional values: the model's stand-in for `T | null` and `T | undefined`. */
module Wrappers {

  datatype Option<+T> = None | Some(value: T)

  /** JavaScript truthiness of a `string | null`: null and "" are both false. */
  predicate Truthy(s: Option<string>) {
    s.Some? && s.value != ""
  }
}
