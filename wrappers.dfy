/** Optional values: a TypeScript `field?: T` that is either absent or holds a value. */
module Wrappers {

  datatype Option<+T> = None | Some(value: T)

  /**
   * JavaScript truthiness of an optional string (`field && …`): an absent field
   * and the empty string are both false.
   */
  predicate Truthy(field: Option<string>)
  {
    field.Some? && field.value != ""
  }
}
