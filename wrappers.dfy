/** Optional values: an absent storage key, a `Vec::get` past the end, a lookup that finds nothing. */
module Wrappers {

  datatype Option<+T> = None | Some(value: T)
}
