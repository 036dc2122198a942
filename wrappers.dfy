/** The optional value that stands for Rust's `Option`, and for a panic
    where a parse step unwraps. */
module Wrappers {
  datatype Option<T> = None | Some(value: T)
}
