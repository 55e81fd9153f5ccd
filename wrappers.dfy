/** Optional values: a fetch either yields a record or nothing. */
module Wrappers {
  datatype Option<+T> = None | Some(value: T)
}
