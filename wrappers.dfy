/** The optional value used where the source returns `null`/`false` instead of a result. */
module Wrappers {

  datatype Option<+T> = None | Some(value: T)
}
