/** The conventional Some/None datatype, for the source's null pointers and absent answers. */
module Wrappers {

  datatype Option<+T> = None | Some(value: T)
}
