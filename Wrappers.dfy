/** The optional value used for "no handler", "no reply" and "not parsable". */
module Wrappers {

  datatype Option<+T> = None | Some(value: T)
}
