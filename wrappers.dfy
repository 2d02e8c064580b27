/** Optional values: a JavaScript `undefined`/`null` is `None`. */
module Wrappers {

  datatype Option<+T> = None | Some(value: T)
}
