/** Optional values: a JSON field that may be absent, a path id that may not parse. */
module Wrappers {

  datatype Option<+T> = None | Some(value: T)
}
