/** A value that may be absent: pandas' NaN in a column of quotes. */
module Wrappers {

  datatype Option<+T> = None | Some(value: T)
}
