/** Option, for values that may be absent: an expired weak pointer, an empty queue. */
module Wrappers {

  datatype Option<+T> = None | Some(value: T)
}
