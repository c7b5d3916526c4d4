/** The optional value the engine uses where the source returns `undefined`. */
module Wrappers {
  datatype Option<+T> = None | Some(value: T)
}
