/** Optional values: Python's `None` and the presence or absence of a key. */
module Wrappers {

  datatype Option<+T> = None | Some(value: T)
}
