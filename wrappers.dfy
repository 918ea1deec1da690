/** The optional value used for a PHP property that may still be unset (reads as null). */
module Wrappers {

  datatype Option<+T> = None | Some(value: T)

}
