/** Optional values: a JavaScript `null`, or a missing `localStorage` key. */
module Wrappers {

  datatype Option<+T> = None | Some(value: T)
}
