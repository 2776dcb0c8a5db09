/** Optional values, for the fields of a JSON object or a thrown error that may be absent. */
module Wrappers {

  datatype Option<+T> = None | Some(value: T)
}
