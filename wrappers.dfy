/** The optional value used for "null or a value": the selection and parsed numbers. */
module Wrappers {

  datatype Option<+T> = None | Some(value: T)
}
