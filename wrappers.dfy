/** Optional values, used where the server either has a value or raises. */
module Wrappers {

  datatype Option<+T> = None | Some(value: T)
}
