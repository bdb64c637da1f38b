/** The optional value used for fields that a record may lack or hold as null. */
module Wrappers {
  datatype Option<+T> = None | Some(value: T)
}
