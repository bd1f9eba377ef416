/** A missing value, as pandas produces when a lookup finds no entry. */
module Wrappers {

  datatype Option<+T> = None | Some(value: T)

}
