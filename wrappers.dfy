/** Optional values: every Go pointer field of the model is an `Option`, with `None` for nil. */
module Wrappers {

  datatype Option<+T> = None | Some(value: T)
}
