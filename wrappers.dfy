/** The nullable values of the store (a column that may hold NULL, a row a query may not find). */
module Wrappers {
  datatype Option<+T> = None | Some(value: T)
}
