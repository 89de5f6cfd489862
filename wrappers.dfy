/** Optional values: the model's counterpart of the repository's `T | null` results. */
module Wrappers {
  datatype Option<+T> = None | Some(value: T)
}
