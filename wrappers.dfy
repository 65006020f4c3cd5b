/** Optional values: a record field that may be absent, or React state that may be null. */
module Wrappers {

  datatype Option<+T> = None | Some(value: T)
}
