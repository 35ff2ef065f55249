/** Optional values, as the engine's `Option` returns them. */
module Wrappers {

  datatype Option<+T> = None | Some(value: T)
}
