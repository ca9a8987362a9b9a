/** Option, used wherever the C++ code has a nullable pointer or handle. */
module Wrappers {

  datatype Option<+T> = None | Some(value: T)
}
