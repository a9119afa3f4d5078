/** Optional values, standing for Python's `None` and `Optional[...]`. */
module Wrappers {

  datatype Option<+T> = None | Some(value: T)
}
