/** The optional value shared by the modules of this model (`Option` in Rust). */
module Wrappers {
  datatype Option<T> = None | Some(value: T)
}
