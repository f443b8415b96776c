/** The optional value used wherever the source passes a tile that may be null. */
module Wrappers {
  datatype Option<+T> = None | Some(value: T)
}
