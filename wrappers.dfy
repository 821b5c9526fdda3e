/** Optional values, for the results of decoding and number parsing that may fail. */
module Wrappers {

  datatype Option<+T> = None | Some(value: T)
}
