/** The optional value used wherever the source has `null`/`undefined` or a
    lookup that may find nothing. */
module Wrappers {
  datatype Option<+T> = None | Some(value: T)
}
