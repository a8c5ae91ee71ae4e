/** The optional value used where the library returns `None` or a value. */
module Wrappers {

  datatype Option<+T> = None | Some(value: T)
}
