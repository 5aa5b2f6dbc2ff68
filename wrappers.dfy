/** The conventional optional value, standing in for a pointer that may be null. */
module Wrappers {

  datatype Option<+T> = None | Some(value: T)

}
