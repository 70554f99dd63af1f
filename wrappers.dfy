/** JavaScript's `null` / missing value, made explicit. */
module Wrappers {

  datatype Option<+T> = None | Some(value: T)
}
