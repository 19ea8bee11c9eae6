/** An optional value: a JDBC column value that may be SQL NULL. */
module Wrappers {

  datatype Option<+T> = None | Some(value: T)
}
