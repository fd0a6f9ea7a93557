/** The usual Some/None wrapper, standing in for Go's nil pointers and
    for lookups that can miss. */
module Wrappers {

  datatype Option<+T> = None | Some(value: T)
}
