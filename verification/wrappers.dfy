/** The optional value used where the client stores `None`. */
module Wrappers {
  datatype Option<+T> = None | Some(value: T)
}
