/** The optional value used for JavaScript's `undefined` arguments and fields. */
module Wrappers {
  datatype Option<+T> = None | Some(value: T)
}
