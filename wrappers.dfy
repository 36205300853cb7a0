/** The optional value used for nullable references and failed queries. */
module Wrappers {

  datatype Option<+T> = None | Some(value: T)
}
