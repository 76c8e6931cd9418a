/** Optional values: Swift's `T?` for value types. */
module Wrappers {
  datatype Option<+T> = None | Some(value: T)
}
