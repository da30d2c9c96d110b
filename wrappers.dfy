/** Option: a value that may be absent (a null pointer, a missing key). */
module Wrappers {

  datatype Option<+T> = None | Some(value: T)

}
