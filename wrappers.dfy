/** Optional values: the `T | null` and `T | undefined` of the check-in app. */
module Wrappers {
  datatype Option<+T> = None | Some(value: T)
}
