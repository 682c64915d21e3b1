/** The Option type used where the C code would read outside an array. */
module Wrappers {
  datatype Option<+T> = None | Some(value: T)
}
