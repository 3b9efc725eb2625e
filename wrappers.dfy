/** The optional value used for request headers and for environment entries
    that a request may or may not carry. */
module Wrappers {

  datatype Option<+T> = None | Some(value: T)
}
