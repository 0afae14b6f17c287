/** The optional value used for nullable pointers (pattern slots) and for a
    canvas that has gone into an error state. */
module Wrappers {

  datatype Option<+T> = None | Some(value: T)
}
