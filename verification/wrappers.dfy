/** Optional values, used for the nullable columns and the optional group label. */
module Wrappers {

  /** The conventional Some/None datatype; `None` stands for SQL NULL or an unset variable. */
  datatype Option<+T> = None | Some(value: T)
}
