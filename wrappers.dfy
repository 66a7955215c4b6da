/** Optional values, for the `Optional[...]` attributes of the directive record. */
module Wrappers {

  datatype Option<+T> = None | Some(value: T)
}
