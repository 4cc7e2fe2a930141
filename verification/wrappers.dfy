/** Optional values: the absence of a value stands for "no error" or for a run-time panic. */
module Wrappers {
  datatype Option<+T> = None | Some(value: T)
}
