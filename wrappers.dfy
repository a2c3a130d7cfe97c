/** The usual optional value, standing for JavaScript's `null` where the routes test for it. */
module Wrappers {

  datatype Option<+T> = None | Some(value: T)
}
