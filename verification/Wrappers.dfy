/** A value that may be missing: a nil pointer, a reply that did not come. */
module Wrappers {
  datatype Option<+T> = None | Some(value: T)
}
