/** Optional values: a Java reference or boxed field that may be null. */
module Wrappers {

  datatype Option<+T> = None | Some(value: T)
}
