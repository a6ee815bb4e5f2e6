/** Option type for operations that may fail without a payload. */
module Wrappers {

  datatype Option<+T> = None | Some(value: T)
}
