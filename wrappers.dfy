/** The Option type used for operations that the source lets throw or fail. */
module Wrappers {

  datatype Option<+T> = None | Some(value: T)

}
