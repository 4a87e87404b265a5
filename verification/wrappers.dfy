/** The optional value used for "a label may be absent" and "a scale may be absent". */
module Wrappers {
  datatype Option<+T> = None | Some(value: T)
}
