/** Optional values: `None` stands for Python's `None` or a raised exception,
    as each use site says. */
module Wrappers {
  datatype Option<T> = None | Some(value: T)
}
