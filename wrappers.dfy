/** An optional value: a field a request body may or may not carry. */
module Wrappers {

  datatype Option<+T> = None | Some(value: T)
}
