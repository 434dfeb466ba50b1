/** `Option`, the Rust sum type for a value that may be absent. */
module Wrappers {

  datatype Option<T> = None | Some(value: T)
}
