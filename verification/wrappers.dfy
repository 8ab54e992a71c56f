/** A value that may be absent: an unset callback, a failed lookup. */
module Wrappers {

  datatype Option<+T> = None | Some(value: T)
}
