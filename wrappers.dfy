/** The optional value the server writes as `null` in JavaScript. */
module Wrappers {
  datatype Option<T> = None | Some(value: T)
}
