/** The optional value used for `Option<T>` fields and for outcomes that may be absent. */
module Wrappers {

  datatype Option<+T> = None | Some(value: T)
}
