/** The absent-or-present values that the store's TypeScript writes as `T | null`. */
module Wrappers {
  datatype Option<T> = None | Some(value: T)
}
