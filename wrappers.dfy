/** Optional values: a field that may be `undefined`, a lookup that may miss. */
module Wrappers {

  datatype Option<+T> = None | Some(value: T)
}
