/** Optional values, used for the keys a form or a draft may leave out. */
module Wrappers {

  datatype Option<+T> = None | Some(value: T)
}
