/** The optional value used wherever the code reads a property that may be
    `undefined`. */
module Wrappers {

  datatype Option<+T> = None | Some(value: T)
}
