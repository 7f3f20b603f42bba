/** The optional value used for requests that a handler may or may not send. */
module Wrappers {

  datatype Option<+T> = None | Some(value: T)
}
