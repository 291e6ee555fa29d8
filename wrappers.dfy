/** The optional value used for Java's `null` results and failed conversions. */
module Wrappers {

  datatype Option<+T> = None | Some(value: T)

}
