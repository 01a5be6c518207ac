/** The optional value used wherever a property of the source may be undefined. */
module Wrappers {

  datatype Option<+T> = None | Some(value: T)
}
