/** The conventional Some/None datatype, used where the program holds a
    pointer that may be null. */
module Wrappers {

  datatype Option<+T> = None | Some(value: T)
}
