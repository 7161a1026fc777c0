/** Python's `None`-or-value, as used for the session fields and ticker lookups. */
module Wrappers {

  datatype Option<+T> = None | Some(value: T)

}
