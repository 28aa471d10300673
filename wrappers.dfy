/** Option type used for values that may be absent (a failed parse, an empty list). */
module Wrappers {

  datatype Option<+T> = None | Some(value: T)

}
