/** The optional value used wherever the C code returns NULL or a sentinel. */
module Wrappers {

  datatype Option<+T> = None | Some(value: T)
}
