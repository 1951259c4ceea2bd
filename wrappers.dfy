/** The optional value used for a simulation run that produced no result. */
module Wrappers {

  datatype Option<+T> = None | Some(value: T)
}
