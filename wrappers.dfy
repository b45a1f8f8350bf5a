/** Optional values: Python's `Optional[...]` arguments and parses that may fail. */
module Wrappers {

  datatype Option<+T> = None | Some(value: T)
}
