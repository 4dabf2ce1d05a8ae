/** The optional value used for the source's nullable references and thrown exceptions. */
module Wrappers {

  datatype Option<T> = None | Some(value: T)
}
