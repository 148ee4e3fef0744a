/** Optional values: Python's `None` and the result of a query that may fail. */
module Wrappers {

  datatype Option<+T> = None | Some(value: T)
}
