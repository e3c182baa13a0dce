/** The types that several models share. */
module Wrappers {
  datatype Option<+T> = None | Some(value: T)

  newtype Byte = x: int | 0 <= x < 256
}
