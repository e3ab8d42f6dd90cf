/** Optional values, for Swift's `T?` (`firstIndex(where:)`, `itemToRemove`, a Core Data title). */
module Wrappers {

  datatype Option<+T> = None | Some(value: T)
}
