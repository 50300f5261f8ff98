/** The optional value used wherever the program may have no value to give. */
module Wrappers {

  datatype Option<+T> = None | Some(value: T)

}
