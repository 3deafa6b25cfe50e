/** The optional-value datatype shared by the idea store and the vote route. */
module Wrappers {

  /** A value that may be missing: `find` that matched nothing, a request body without `id`. */
  datatype Option<+T> = None | Some(value: T)
}
