/** Python's `None`-or-value, as used for the sentinel pair of the import-error list. */
module Wrappers {

  datatype Option<+T> = None | Some(value: T)
}
