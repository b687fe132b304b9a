/** The optional value used for Rust's `Option` and for partial results. */
module Wrappers {
  datatype Option<+T> = None | Some(value: T)
}
