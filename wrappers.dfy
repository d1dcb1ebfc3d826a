/** Optional values: an argument that may be left out, a draw that may be culled. */
module Wrappers {

  datatype Option<+T> = None | Some(value: T)
}
