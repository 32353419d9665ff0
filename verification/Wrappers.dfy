/** What Python's `None` and Rust's `Option` stand for. */
module Wrappers {

  datatype Option<+T> = None | Some(value: T)
}
