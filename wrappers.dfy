/** The optional value used wherever the source may produce nothing. */
module Wrappers {

  datatype Option<+T> = None | Some(value: T)
}
