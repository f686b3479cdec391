/** The optional value used for "a tone was requested on this tick, or not". */
module Wrappers {

  datatype Option<+T> = None | Some(value: T)
}
