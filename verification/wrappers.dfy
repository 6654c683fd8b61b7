/** The optional value used wherever the source has a nullable pointer or a
    "no result" outcome. */
module Wrappers {

  datatype Option<+T> = None | Some(value: T)
}
