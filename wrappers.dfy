/** Optional values: a file that may be absent, a dialog that may be cancelled. */
module Wrappers {
  datatype Option<+T> = None | Some(value: T)
}
