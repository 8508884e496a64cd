/** The optional value used for the mover's two-slot date range. */
module Wrappers {

  datatype Option<+T> = None | Some(value: T)
}
