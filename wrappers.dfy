/** Optional values: `None` stands for JavaScript's `null`/`undefined` and for Python's `None`. */
module Wrappers {

  datatype Option<+T> = None | Some(value: T)
}
