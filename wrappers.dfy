/** The Option type the source takes from Rust's standard library. */
module Wrappers {

  datatype Option<+T> = None | Some(value: T)

}
