/** Optional values, for Python's `None` where a value may be missing. */
module Wrappers {

  datatype Option<+T> = None | Some(value: T)
}
