/** The optional value used for Go's nil-able pointers and interfaces. */
module Wrappers {

  /** `None` is Go's nil; `Some(v)` a non-nil pointer to, or interface holding, `v`. */
  datatype Option<+T> = None | Some(value: T)
}
