/** The optional-value datatype used for nullable state (`editingSong`, `user`, `error`). */
module Wrappers {
  datatype Option<+T> = None | Some(value: T)
}
