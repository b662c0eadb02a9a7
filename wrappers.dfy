/** Optional values: Python's `None` for an omitted argument. */
module Wrappers {

  datatype Option<+T> = None | Some(value: T)
}
