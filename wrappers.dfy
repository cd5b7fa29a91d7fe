/** An optional value: the result of a first-match lookup (`find`), or a date input that may be empty. */
module Wrappers {

  datatype Option<+T> = None | Some(value: T)
}
