/** Option, for the keys of a JSON object that may be absent. */
module Wrappers {
  datatype Option<+T> = None | Some(value: T)
}
