/** Optional values: Python's `Optional[...]`, with `None` for an absent value. */
module Wrappers {

  datatype Option<+T> = None | Some(value: T)

}
