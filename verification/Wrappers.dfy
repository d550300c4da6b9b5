/** What both transition systems use for an owner that may be absent. */
module Wrappers {
  datatype Option<T> = None | Some(value: T)
}
