/** Option, used where the program has Rust's `Option`. */
module Wrappers {
  datatype Option<+T> = None | Some(value: T)
}
