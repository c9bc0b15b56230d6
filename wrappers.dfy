/** Optional values: a JSON body field that may be absent, or a number that
    may be NaN. */
module Wrappers {

  datatype Option<+T> = None | Some(value: T)
}
