/** The optional value the model uses where the sources use None. */
module Wrappers {
  datatype Option<+T> = None | Some(value: T)
}
