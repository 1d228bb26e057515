/** The optional value used wherever the source can yield `null` or `undefined`. */
module Wrappers {
  datatype Option<+T> = None | Some(value: T)
}
