/** The optional value used wherever the source handles a falsy result. */
module Wrappers {

  datatype Option<+T> = None | Some(value: T)
}
