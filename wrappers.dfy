/** An optional value, used for the fields of a trade that stay unset while it is open. */
module Wrappers {

  datatype Option<+T> = None | Some(value: T)
}
