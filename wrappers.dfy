/** The nullable reference of the Java model: a request field that may be absent. */
module Wrappers {

  datatype Option<+T> = None | Some(value: T)
}
